/** The situations exercised by the repository's tests of
    `deduplicate_concurrent`, played on the model as schedules of atomic
    steps, for arbitrary argument values; and the general form of the first:
    any number of overlapping identical calls share one invocation. */
module Scenarios {
  import opened Coalesce
  import D = AioDeduplicate

  /** Playing two schedules in turn is playing their concatenation. */
  lemma {:induction false} RunAppend(s: D.State, a: seq<Event>, b: seq<Event>)
    ensures D.Run(s, a + b) == if D.Run(s, a).Some? then D.Run(D.Run(s, a).value, b) else None
    decreases |a|
  {
    if a == [] {
      assert a + b == b;
    } else {
      assert (a + b)[0] == a[0];
      assert (a + b)[1..] == a[1..] + b;
      if D.Step(s, a[0]).Some? {
        RunAppend(D.Step(s, a[0]).value, a[1..], b);
      }
    }
  }

  /** Two overlapping calls with the same arguments: `func` is invoked once
      and both calls return its value. */
  lemma IdenticalConcurrentShareOne(args: seq<Val>, kwargs: seq<(string, Val)>, v: Val)
    ensures var t := D.Run(D.Init(), [Call(0, args, kwargs), Call(1, args, kwargs), Complete(0, Value(v)), Wake(0), Wake(1)]);
      && t.Some?
      && t.value.reg.calls == [MakeKey(args, kwargs)]
      && D.Outcomes(t.value) == map[0 := Value(v), 1 := Value(v)]
  {
    var k := MakeKey(args, kwargs);
    var s0 := D.Init();
    var s1 := D.Start(s0, 0, k);
    var s2 := D.Start(s1, 1, k);
    var s3 := D.Finish(s2, 0, Value(v));
    var s4 := D.Resume(s3, 0);
    var s5 := D.Resume(s4, 1);
    assert D.Run(s4, [Wake(1)]) == Some(s5);
    assert D.Run(s3, [Wake(0), Wake(1)]) == Some(s5);
    assert D.Run(s2, [Complete(0, Value(v)), Wake(0), Wake(1)]) == Some(s5);
    assert D.Run(s1, [Call(1, args, kwargs), Complete(0, Value(v)), Wake(0), Wake(1)]) == Some(s5);
    assert D.Outcomes(s5) == map[0 := Value(v), 1 := Value(v)];
  }

  /** Two overlapping calls whose keyword arguments differ: `func` is
      invoked once per argument set, in issue order, and the second call may
      finish first. */
  lemma DifferentConcurrentBothRun(args: seq<Val>, kw1: seq<(string, Val)>, kw2: seq<(string, Val)>, v: Val)
    requires kw1 != kw2
    ensures var t := D.Run(D.Init(), [Call(0, args, kw1), Call(1, args, kw2), Complete(1, Value(v)), Wake(1), Complete(0, Value(v)), Wake(0)]);
      && t.Some?
      && t.value.reg.calls == [MakeKey(args, kw1), MakeKey(args, kw2)]
      && D.Outcomes(t.value) == map[0 := Value(v), 1 := Value(v)]
  {
    var k1, k2 := MakeKey(args, kw1), MakeKey(args, kw2);
    var s0 := D.Init();
    var s1 := D.Start(s0, 0, k1);
    var s2 := D.Start(s1, 1, k2);
    assert s2.tasks == map[0 := D.Task(k1, 0, D.Running), 1 := D.Task(k2, 1, D.Running)];
    assert s2.reg.futures == [None, None];
    var s3 := D.Finish(s2, 1, Value(v));
    assert s3.tasks[0] == D.Task(k1, 0, D.Running);
    assert s3.reg.futures == [None, Some(Value(v))];
    var s4 := D.Resume(s3, 1);
    var s5 := D.Finish(s4, 0, Value(v));
    var s6 := D.Resume(s5, 0);
    assert D.Run(s5, [Wake(0)]) == Some(s6);
    assert D.Run(s4, [Complete(0, Value(v)), Wake(0)]) == Some(s6);
    assert D.Run(s3, [Wake(1), Complete(0, Value(v)), Wake(0)]) == Some(s6);
    assert D.Run(s2, [Complete(1, Value(v)), Wake(1), Complete(0, Value(v)), Wake(0)]) == Some(s6);
    assert D.Run(s1, [Call(1, args, kw2), Complete(1, Value(v)), Wake(1), Complete(0, Value(v)), Wake(0)]) == Some(s6);
    assert D.Outcomes(s6) == map[0 := Value(v), 1 := Value(v)];
  }

  /** The first call returns, and its identifier is gone, before the second
      starts: both invoke `func`. */
  lemma IdenticalSequentialBothRun(args: seq<Val>, kwargs: seq<(string, Val)>, v: Val)
    ensures var t := D.Run(D.Init(), [Call(0, args, kwargs), Complete(0, Value(v)), Wake(0), Call(1, args, kwargs), Complete(1, Value(v)), Wake(1)]);
      && t.Some?
      && t.value.reg.calls == [MakeKey(args, kwargs), MakeKey(args, kwargs)]
      && D.Outcomes(t.value) == map[0 := Value(v), 1 := Value(v)]
  {
    var k := MakeKey(args, kwargs);
    var s0 := D.Init();
    var s1 := D.Start(s0, 0, k);
    var s2 := D.Finish(s1, 0, Value(v));
    var s3 := D.Resume(s2, 0);
    var s4 := D.Start(s3, 1, k);
    var s5 := D.Finish(s4, 1, Value(v));
    var s6 := D.Resume(s5, 1);
    assert D.Run(s5, [Wake(1)]) == Some(s6);
    assert D.Run(s4, [Complete(1, Value(v)), Wake(1)]) == Some(s6);
    assert D.Run(s3, [Call(1, args, kwargs), Complete(1, Value(v)), Wake(1)]) == Some(s6);
    assert D.Run(s2, [Wake(0), Call(1, args, kwargs), Complete(1, Value(v)), Wake(1)]) == Some(s6);
    assert D.Run(s1, [Complete(0, Value(v)), Wake(0), Call(1, args, kwargs), Complete(1, Value(v)), Wake(1)]) == Some(s6);
    assert D.Outcomes(s6) == map[0 := Value(v), 1 := Value(v)];
  }

  /** The shared execution raises: both calls raise that same exception, and
      `func` was invoked once. */
  lemma IdenticalConcurrentShareException(args: seq<Val>, kwargs: seq<(string, Val)>, e: Val)
    ensures var t := D.Run(D.Init(), [Call(0, args, kwargs), Call(1, args, kwargs), Complete(0, Error(e)), Wake(0), Wake(1)]);
      && t.Some?
      && t.value.reg.calls == [MakeKey(args, kwargs)]
      && D.Outcomes(t.value) == map[0 := Error(e), 1 := Error(e)]
  {
    var k := MakeKey(args, kwargs);
    var s0 := D.Init();
    var s1 := D.Start(s0, 0, k);
    var s2 := D.Start(s1, 1, k);
    var s3 := D.Finish(s2, 0, Error(e));
    var s4 := D.Resume(s3, 0);
    var s5 := D.Resume(s4, 1);
    assert D.Run(s4, [Wake(1)]) == Some(s5);
    assert D.Run(s3, [Wake(0), Wake(1)]) == Some(s5);
    assert D.Run(s2, [Complete(0, Error(e)), Wake(0), Wake(1)]) == Some(s5);
    assert D.Run(s1, [Call(1, args, kwargs), Complete(0, Error(e)), Wake(0), Wake(1)]) == Some(s5);
    assert D.Outcomes(s5) == map[0 := Error(e), 1 := Error(e)];
  }

  /** The owner's task is cancelled inside `func`: the waiting call ends
      cancelled too instead of waiting forever. */
  lemma OwnerCancelledWaiterCancelled(args: seq<Val>, kwargs: seq<(string, Val)>)
    ensures var t := D.Run(D.Init(), [Call(0, args, kwargs), Call(1, args, kwargs), Complete(0, Cancelled), Wake(1)]);
      && t.Some?
      && t.value.reg.calls == [MakeKey(args, kwargs)]
      && D.Outcomes(t.value) == map[1 := Cancelled]
  {
    var k := MakeKey(args, kwargs);
    var s0 := D.Init();
    var s1 := D.Start(s0, 0, k);
    var s2 := D.Start(s1, 1, k);
    var s3 := D.Finish(s2, 0, Cancelled);
    var s4 := D.Resume(s3, 1);
    assert D.Run(s3, [Wake(1)]) == Some(s4);
    assert D.Run(s2, [Complete(0, Cancelled), Wake(1)]) == Some(s4);
    assert D.Run(s1, [Call(1, args, kwargs), Complete(0, Cancelled), Wake(1)]) == Some(s4);
    assert D.Outcomes(s4) == map[1 := Cancelled];
  }

  // ---------------------------------------------------------------------
  // Any number of overlapping identical calls

  /** Calls first, first+1, ..., first+n-1, all with the same arguments. */
  function Calls(first: nat, n: nat, args: seq<Val>, kwargs: seq<(string, Val)>): seq<Event>
    decreases n
  {
    if n == 0 then [] else [Call(first, args, kwargs)] + Calls(first + 1, n - 1, args, kwargs)
  }

  /** Wakes of callers first, ..., first+n-1. */
  function Wakes(first: nat, n: nat): seq<Event>
    decreases n
  {
    if n == 0 then [] else [Wake(first)] + Wakes(first + 1, n - 1)
  }

  /** The callers 0, ..., n-1. */
  function Ids(n: nat): (r: set<CallerId>)
    ensures forall i: CallerId :: i in r <==> i < n
  {
    if n == 0 then {} else Ids(n - 1) + {n - 1}
  }

  /** Caller 0 owns the one execution for k, callers 1..n-1 wait on it. */
  function Gathered(k: Key, n: nat): D.State
  {
    D.State(Registry(map[k := 0], [None], [k]),
            map i | i in Ids(n) :: if i == 0 then D.Task(k, 0, D.Running) else D.Task(k, 0, D.Waiting))
  }

  /** The execution ended with o; callers below j have returned it. */
  function Woken(k: Key, n: nat, o: Outcome, j: nat): D.State
  {
    D.State(Registry(map[], [Some(o)], [k]),
            map i | i in Ids(n) ::
              if i < j then D.Task(k, 0, D.Returned(o))
              else if i == 0 then D.Task(k, 0, D.Returning)
              else D.Task(k, 0, D.Waiting))
  }

  lemma {:induction false} GatherAll(args: seq<Val>, kwargs: seq<(string, Val)>, m: nat, n: nat)
    requires 1 <= m <= n
    ensures D.Run(Gathered(MakeKey(args, kwargs), m), Calls(m, n - m, args, kwargs)) == Some(Gathered(MakeKey(args, kwargs), n))
    decreases n - m
  {
    var k := MakeKey(args, kwargs);
    if m < n {
      var s := Gathered(k, m);
      var t := D.Start(s, m, k);
      assert t == Gathered(k, m + 1);
      assert D.Step(s, Call(m, args, kwargs)) == Some(Gathered(k, m + 1));
      GatherAll(args, kwargs, m + 1, n);
    }
  }

  lemma {:induction false} WakeAll(k: Key, n: nat, o: Outcome, j: nat)
    requires 1 <= n && j <= n
    ensures D.Run(Woken(k, n, o, j), Wakes(j, n - j)) == Some(Woken(k, n, o, n))
    decreases n - j
  {
    if j < n {
      var s := Woken(k, n, o, j);
      assert D.CanResume(s, j);
      assert D.Resume(s, j) == Woken(k, n, o, j + 1);
      WakeAll(k, n, o, j + 1);
    }
  }

  lemma GatherFromInit(args: seq<Val>, kwargs: seq<(string, Val)>, n: nat)
    requires 1 <= n
    ensures D.Run(D.Init(), Calls(0, n, args, kwargs)) == Some(Gathered(MakeKey(args, kwargs), n))
  {
    var k := MakeKey(args, kwargs);
    assert Calls(0, n, args, kwargs) == [Call(0, args, kwargs)] + Calls(1, n - 1, args, kwargs);
    assert D.Start(D.Init(), 0, k) == Gathered(k, 1);
    RunAppend(D.Init(), [Call(0, args, kwargs)], Calls(1, n - 1, args, kwargs));
    GatherAll(args, kwargs, 1, n);
  }

  lemma FinishThenWakeAll(k: Key, n: nat, o: Outcome)
    requires 1 <= n
    ensures D.Run(Gathered(k, n), [Complete(0, o)] + Wakes(0, n)) == Some(Woken(k, n, o, n))
  {
    assert D.Finish(Gathered(k, n), 0, o) == Woken(k, n, o, 0);
    RunAppend(Gathered(k, n), [Complete(0, o)], Wakes(0, n));
    WakeAll(k, n, o, 0);
  }

  /** Any number n of calls with the same arguments, all issued while the
      first one's `func` is running: `func` is invoked exactly once, and
      every call returns its outcome, whatever that outcome is. */
  lemma OverlappingCallsInvokeOnce(args: seq<Val>, kwargs: seq<(string, Val)>, n: nat, o: Outcome)
    requires 1 <= n
    ensures var t := D.Run(D.Init(), Calls(0, n, args, kwargs) + [Complete(0, o)] + Wakes(0, n));
      && t.Some?
      && t.value.reg.calls == [MakeKey(args, kwargs)]
      && D.Outcomes(t.value) == map i | i in Ids(n) :: o
  {
    var k := MakeKey(args, kwargs);
    var calls := Calls(0, n, args, kwargs);
    GatherFromInit(args, kwargs, n);
    FinishThenWakeAll(k, n, o);
    RunAppend(D.Init(), calls, [Complete(0, o)] + Wakes(0, n));
    assert calls + [Complete(0, o)] + Wakes(0, n) == calls + ([Complete(0, o)] + Wakes(0, n));
    assert D.Outcomes(Woken(k, n, o, n)) == map i | i in Ids(n) :: o;
  }
}
