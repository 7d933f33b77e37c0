/** Observers over a trace of pool steps, and how they distribute over
    concatenation. */
module Trace {
  import opened Driver

  /** The query attempts of a trace, in order. */
  function AttemptsOf(t: seq<Step>): (a: seq<Step>)
    ensures |a| <= |t|
    ensures forall k :: 0 <= k < |a| ==> a[k].Attempt?
    decreases |t|
  {
    if |t| == 0 then []
    else (if t[0].Attempt? then [t[0]] else []) + AttemptsOf(t[1..])
  }

  /** The number of pool creations (replacements) in a trace. */
  function CountCreates(t: seq<Step>): nat
    decreases |t|
  {
    if |t| == 0 then 0
    else (if t[0].Create? then 1 else 0) + CountCreates(t[1..])
  }

  /** The generations asked to end in a trace, in order. */
  function EndsOf(t: seq<Step>): (e: seq<nat>)
    ensures |e| <= |t|
    decreases |t|
  {
    if |t| == 0 then []
    else (if t[0].EndOld? then [t[0].generation] else []) + EndsOf(t[1..])
  }

  /** The current pool generation after replaying a trace from generation g. */
  function CurrentAfter(g: nat, t: seq<Step>): nat
    decreases |t|
  {
    if |t| == 0 then g
    else CurrentAfter(if t[0].Create? then t[0].generation else g, t[1..])
  }

  /** Every attempt and every end request is addressed to the pool that is
      current at that moment, and every created pool is newer than the one it
      replaces. */
  predicate Consistent(g: nat, t: seq<Step>)
    decreases |t|
  {
    |t| == 0 ||
    match t[0]
    case Attempt(h, _) => h == g && Consistent(g, t[1..])
    case EndOld(h) => h == g && Consistent(g, t[1..])
    case Create(h) => h > g && Consistent(h, t[1..])
  }

  lemma {:induction false} AttemptsOfConcat(a: seq<Step>, b: seq<Step>)
    ensures AttemptsOf(a + b) == AttemptsOf(a) + AttemptsOf(b)
    decreases |a|
  {
    if |a| == 0 {
      assert a + b == b;
    } else {
      assert (a + b)[1..] == a[1..] + b;
      AttemptsOfConcat(a[1..], b);
    }
  }

  lemma {:induction false} EndsOfConcat(a: seq<Step>, b: seq<Step>)
    ensures EndsOf(a + b) == EndsOf(a) + EndsOf(b)
    decreases |a|
  {
    if |a| == 0 {
      assert a + b == b;
    } else {
      assert (a + b)[1..] == a[1..] + b;
      assert (a + b)[0] == a[0];
      EndsOfConcat(a[1..], b);
      var head := if a[0].EndOld? then [a[0].generation] else [];
      assert EndsOf(a + b) == head + EndsOf(a[1..] + b);
      assert EndsOf(a) == head + EndsOf(a[1..]);
      assert head + (EndsOf(a[1..]) + EndsOf(b)) == (head + EndsOf(a[1..])) + EndsOf(b);
    }
  }

  /** A generation is asked to end exactly when some EndOld step names it. */
  lemma {:induction false} EndsOfNamesEndSteps(t: seq<Step>, g: nat)
    ensures g in EndsOf(t) <==> exists k :: 0 <= k < |t| && t[k] == EndOld(g)
    decreases |t|
  {
    if |t| > 0 {
      EndsOfNamesEndSteps(t[1..], g);
      if g in EndsOf(t[1..]) {
        var k :| 0 <= k < |t[1..]| && t[1..][k] == EndOld(g);
        assert t[k + 1] == EndOld(g);
      }
      if exists k :: 0 <= k < |t| && t[k] == EndOld(g) {
        var k :| 0 <= k < |t| && t[k] == EndOld(g);
        if k > 0 {
          assert t[1..][k - 1] == EndOld(g);
        }
      }
    }
  }

  lemma {:induction false} CountCreatesConcat(a: seq<Step>, b: seq<Step>)
    ensures CountCreates(a + b) == CountCreates(a) + CountCreates(b)
    decreases |a|
  {
    if |a| == 0 {
      assert a + b == b;
    } else {
      assert (a + b)[1..] == a[1..] + b;
      CountCreatesConcat(a[1..], b);
    }
  }

  /** Replaying a + b is replaying a, then b from where a left off; and a + b
      is consistent exactly when both halves are, each from its own start. */
  lemma {:induction false} ConsistentConcat(g: nat, a: seq<Step>, b: seq<Step>)
    ensures CurrentAfter(g, a + b) == CurrentAfter(CurrentAfter(g, a), b)
    ensures Consistent(g, a + b) <==> Consistent(g, a) && Consistent(CurrentAfter(g, a), b)
    decreases |a|
  {
    if |a| == 0 {
      assert a + b == b;
    } else {
      assert (a + b)[1..] == a[1..] + b;
      var g' := if a[0].Create? then a[0].generation else g;
      ConsistentConcat(g', a[1..], b);
    }
  }

  /** In a consistent trace the current generation only grows, and it has
      changed exactly when some pool was created. */
  lemma {:induction false} CurrentMovesOnlyOnCreate(g: nat, t: seq<Step>)
    requires Consistent(g, t)
    ensures CurrentAfter(g, t) >= g
    ensures CurrentAfter(g, t) == g <==> CountCreates(t) == 0
    decreases |t|
  {
    if |t| > 0 {
      var g' := if t[0].Create? then t[0].generation else g;
      CurrentMovesOnlyOnCreate(g', t[1..]);
    }
  }

  /** No query attempt is addressed to a pool after that pool was asked to end. */
  predicate NoUseAfterEnd(t: seq<Step>)
  {
    forall i, j :: 0 <= i < j < |t| && t[i].EndOld? && t[j].Attempt? ==> t[j].generation != t[i].generation
  }

  /** In a consistent trace from generation g every attempt targets generation g or later. */
  lemma {:induction false} AttemptsNotBefore(g: nat, t: seq<Step>)
    requires Consistent(g, t)
    ensures forall k :: 0 <= k < |t| && t[k].Attempt? ==> t[k].generation >= g
    decreases |t|
  {
    if |t| > 0 {
      var g' := if t[0].Create? then t[0].generation else g;
      AttemptsNotBefore(g', t[1..]);
      forall k | 0 <= k < |t| && t[k].Attempt?
        ensures t[k].generation >= g
      {
        if k > 0 {
          assert t[k] == t[1..][k - 1];
        }
      }
    }
  }

  /** Two traces without use after end stay so when joined, provided every
      pool the first asked to end is older than every pool the second queries. */
  lemma NoUseAfterEndConcat(a: seq<Step>, b: seq<Step>, m: nat)
    requires NoUseAfterEnd(a) && NoUseAfterEnd(b)
    requires forall g :: g in EndsOf(a) ==> g < m
    requires forall k :: 0 <= k < |b| && b[k].Attempt? ==> b[k].generation >= m
    ensures NoUseAfterEnd(a + b)
  {
    var t := a + b;
    forall i, j | 0 <= i < j < |t| && t[i].EndOld? && t[j].Attempt?
      ensures t[j].generation != t[i].generation
    {
      if j < |a| {
        assert t[i] == a[i] && t[j] == a[j];
      } else if i >= |a| {
        assert t[i] == b[i - |a|] && t[j] == b[j - |a|];
      } else {
        assert t[i] == a[i] && t[j] == b[j - |a|];
        EndsOfNamesEndSteps(a, a[i].generation);
      }
    }
  }
}
