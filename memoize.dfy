/** `memoize_concurrent(func)` and its inner coroutine `memoized`
    (aiomemoizeconcurrent.py). As for `deduplicate_concurrent`, each
    synchronous stretch between two awaits is one atomic step: Start, Finish
    and Resume below. Unlike `deduplicated`, owner and waiter both end in the
    one shared `return await future`. */
module AioMemoizeConcurrent {
  import opened Coalesce

  /** Where a call of `memoized` is suspended, or that it has returned. */
  datatype Phase =
    | Running                  // the owner, in `await func(*args, **kwargs)`
    | Awaiting                 // owner after `finally`, or waiter: in `return await future`
    | Returned(outcome: Outcome)

  /** One call: its key, the future it is bound to, and its phase. */
  datatype Task = Task(key: Key, slot: SlotId, phase: Phase)

  datatype State = State(reg: Registry, tasks: map<CallerId, Task>)

  /** Right after `memoize_concurrent(func)`: `cache = {}`. */
  function Init(): State
  {
    State(EmptyRegistry(), map[])
  }

  /** A new call runs up to its first await. With the key present it takes
      the stored future and awaits it; otherwise it becomes the owner: it
      stores a fresh future and invokes `func`. */
  function Start(s: State, c: CallerId, k: Key): State
    requires c !in s.tasks
  {
    if k in s.reg.table then
      State(s.reg, s.tasks[c := Task(k, s.reg.table[k], Awaiting)])
    else
      State(Register(s.reg, k), s.tasks[c := Task(k, |s.reg.futures|, Running)])
  }

  predicate CanFinish(s: State, c: CallerId)
  {
    c in s.tasks && s.tasks[c].phase == Running && s.tasks[c].slot < |s.reg.futures|
  }

  /** The owner's `func` ends with `o`; the owner settles its future, deletes
      its key and goes on to the shared `return await future`. */
  function Finish(s: State, c: CallerId, o: Outcome): State
    requires CanFinish(s, c)
  {
    var t := s.tasks[c];
    State(Settle(s.reg, t.key, t.slot, o), s.tasks[c := t.(phase := Awaiting)])
  }

  predicate CanResume(s: State, c: CallerId)
  {
    && c in s.tasks
    && s.tasks[c].phase == Awaiting
    && Settled(s.reg.futures, s.tasks[c].slot)
  }

  /** A task suspended on a settled future returns its outcome. */
  function Resume(s: State, c: CallerId): State
    requires CanResume(s, c)
  {
    var t := s.tasks[c];
    State(s.reg, s.tasks[c := t.(phase := Returned(s.reg.futures[t.slot].value))])
  }

  /** One scheduler step; None when the event is not enabled. */
  function Step(s: State, e: Event): Option<State>
  {
    match e
    case Call(c, args, kwargs) =>
      if c !in s.tasks then Some(Start(s, c, MakeKey(args, kwargs))) else None
    case Complete(c, o) =>
      if CanFinish(s, c) then Some(Finish(s, c, o)) else None
    case Wake(c) =>
      if CanResume(s, c) then Some(Resume(s, c)) else None
  }

  /** A schedule played from s; None when some event is not enabled. */
  function Run(s: State, schedule: seq<Event>): Option<State>
    decreases |schedule|
  {
    if schedule == [] then Some(s)
    else match Step(s, schedule[0])
      case None => None
      case Some(t) => Run(t, schedule[1..])
  }

  /** The outcome every task that has returned returned with. */
  function Outcomes(s: State): map<CallerId, Outcome>
  {
    map c | c in s.tasks && s.tasks[c].phase.Returned? :: s.tasks[c].phase.outcome
  }

  // ---------------------------------------------------------------------
  // Invariant

  /** Every task is bound to an existing future created for its own key. */
  ghost predicate Bound(s: State)
  {
    forall c | c in s.tasks ::
      s.tasks[c].slot < |s.reg.calls| && s.reg.calls[s.tasks[c].slot] == s.tasks[c].key
  }

  /** A key is registered exactly while its owner's `func` is running, and
      then to the owner's future. */
  ghost predicate InFlightOwned(s: State)
  {
    && (forall c | c in s.tasks && s.tasks[c].phase == Running ::
          s.tasks[c].key in s.reg.table && s.reg.table[s.tasks[c].key] == s.tasks[c].slot)
    && (forall k | k in s.reg.table ::
          exists c :: c in s.tasks && s.tasks[c] == Task(k, s.reg.table[k], Running))
  }

  /** At most one execution per key is in flight. */
  ghost predicate OneOwnerPerKey(s: State)
  {
    forall c, d | c in s.tasks && d in s.tasks && s.tasks[c].phase == Running && s.tasks[d].phase == Running
                  && s.tasks[c].key == s.tasks[d].key :: c == d
  }

  /** Every task that returned returned its future's outcome. */
  ghost predicate ReturnsSettled(s: State)
  {
    forall c | c in s.tasks && s.tasks[c].phase.Returned? ::
      s.tasks[c].slot < |s.reg.futures| && s.reg.futures[s.tasks[c].slot] == Some(s.tasks[c].phase.outcome)
  }

  ghost predicate Inv(s: State)
  {
    RegistryInv(s.reg) && Bound(s) && InFlightOwned(s) && OneOwnerPerKey(s) && ReturnsSettled(s)
  }

  lemma InitInv()
    ensures Inv(Init())
  {
  }

  lemma StartKeepsInv(s: State, c: CallerId, k: Key)
    requires Inv(s) && c !in s.tasks
    ensures Inv(Start(s, c, k))
  {
    if k in s.reg.table {
      JoinKeepsInv(s, c, k);
    } else {
      OwnKeepsInv(s, c, k);
    }
  }

  lemma JoinKeepsInv(s: State, c: CallerId, k: Key)
    requires Inv(s) && c !in s.tasks && k in s.reg.table
    ensures Inv(Start(s, c, k))
  {
    var t := Start(s, c, k);
    assert t.reg == s.reg;
    assert forall d | d in s.tasks :: t.tasks[d] == s.tasks[d];
    forall k' | k' in t.reg.table
      ensures exists d :: d in t.tasks && t.tasks[d] == Task(k', t.reg.table[k'], Running)
    {
      var d :| d in s.tasks && s.tasks[d] == Task(k', s.reg.table[k'], Running);
      assert t.tasks[d] == Task(k', t.reg.table[k'], Running);
    }
    assert InFlightOwned(t);
  }

  lemma OwnKeepsInv(s: State, c: CallerId, k: Key)
    requires Inv(s) && c !in s.tasks && k !in s.reg.table
    ensures Inv(Start(s, c, k))
  {
    RegisterKeepsInv(s.reg, k);
    OwnKeepsBound(s, c, k);
    OwnKeepsInFlightOwned(s, c, k);
    OwnKeepsOneOwner(s, c, k);
  }

  lemma OwnKeepsBound(s: State, c: CallerId, k: Key)
    requires Bound(s) && |s.reg.calls| == |s.reg.futures| && c !in s.tasks && k !in s.reg.table
    ensures Bound(Start(s, c, k))
  {
  }

  lemma OwnKeepsInFlightOwned(s: State, c: CallerId, k: Key)
    requires InFlightOwned(s) && c !in s.tasks && k !in s.reg.table
    ensures InFlightOwned(Start(s, c, k))
  {
    var t := Start(s, c, k);
    forall k' | k' in t.reg.table
      ensures exists d :: d in t.tasks && t.tasks[d] == Task(k', t.reg.table[k'], Running)
    {
      if k' == k {
        assert t.tasks[c] == Task(k', t.reg.table[k'], Running);
      } else {
        var d :| d in s.tasks && s.tasks[d] == Task(k', s.reg.table[k'], Running);
        assert t.tasks[d] == Task(k', t.reg.table[k'], Running);
      }
    }
  }

  lemma OwnKeepsOneOwner(s: State, c: CallerId, k: Key)
    requires InFlightOwned(s) && OneOwnerPerKey(s) && c !in s.tasks && k !in s.reg.table
    ensures OneOwnerPerKey(Start(s, c, k))
  {
  }

  lemma FinishKeepsInv(s: State, c: CallerId, o: Outcome)
    requires Inv(s) && CanFinish(s, c)
    ensures Inv(Finish(s, c, o))
  {
    var task := s.tasks[c];
    var t := Finish(s, c, o);
    SettleKeepsInv(s.reg, task.key, task.slot, o);
    forall k' | k' in t.reg.table
      ensures exists d :: d in t.tasks && t.tasks[d] == Task(k', t.reg.table[k'], Running)
    {
      var d :| d in s.tasks && s.tasks[d] == Task(k', s.reg.table[k'], Running);
      assert d != c;
      assert t.tasks[d] == Task(k', t.reg.table[k'], Running);
    }
  }

  lemma ResumeKeepsInv(s: State, c: CallerId)
    requires Inv(s) && CanResume(s, c)
    ensures Inv(Resume(s, c))
  {
    var t := Resume(s, c);
    forall k' | k' in t.reg.table
      ensures exists d :: d in t.tasks && t.tasks[d] == Task(k', t.reg.table[k'], Running)
    {
      var d :| d in s.tasks && s.tasks[d] == Task(k', s.reg.table[k'], Running);
      assert d != c;
      assert t.tasks[d] == Task(k', t.reg.table[k'], Running);
    }
  }

  lemma StepKeepsInv(s: State, e: Event)
    requires Inv(s) && Step(s, e).Some?
    ensures Inv(Step(s, e).value)
  {
    match e
    case Call(c, args, kwargs) => StartKeepsInv(s, c, MakeKey(args, kwargs));
    case Complete(c, o) => FinishKeepsInv(s, c, o);
    case Wake(c) => ResumeKeepsInv(s, c);
  }

  /** Every state the scheduler can reach satisfies the invariant. */
  lemma {:induction false} RunKeepsInv(s: State, schedule: seq<Event>)
    requires Inv(s) && Run(s, schedule).Some?
    ensures Inv(Run(s, schedule).value)
    decreases |schedule|
  {
    if schedule != [] {
      StepKeepsInv(s, schedule[0]);
      RunKeepsInv(Step(s, schedule[0]).value, schedule[1..]);
    }
  }

  // ---------------------------------------------------------------------
  // Properties of single steps

  /** A call whose key is registered does not invoke `func`: the
      registry and the log stay as they are, and the call waits on the
      registered, still pending future. */
  lemma JoinLeavesRegistry(s: State, c: CallerId, k: Key)
    requires Inv(s) && c !in s.tasks && k in s.reg.table
    ensures var t := Start(s, c, k);
      && t.reg == s.reg
      && t.tasks == s.tasks[c := Task(k, s.reg.table[k], Awaiting)]
      && !Settled(t.reg.futures, t.tasks[c].slot)
  {
  }

  /** A call whose key is absent stores exactly one fresh pending
      future under it, which no other task is bound to, and appends exactly one
      invocation with that key to the log. */
  lemma OwnRegistersOne(s: State, c: CallerId, k: Key)
    requires Inv(s) && c !in s.tasks && k !in s.reg.table
    ensures var t := Start(s, c, k);
      && t.reg.calls == s.reg.calls + [k]
      && t.reg.futures == s.reg.futures + [None]
      && t.reg.table == s.reg.table[k := |s.reg.futures|]
      && t.tasks == s.tasks[c := Task(k, |s.reg.futures|, Running)]
      && (forall d | d in s.tasks :: s.tasks[d].slot != t.tasks[c].slot)
  {
  }

  /** While an owner is suspended in `func`, a new call shares the owner's
      future exactly when its key equals the owner's, and then invokes
      nothing. */
  lemma ShareIffSameKey(s: State, owner: CallerId, c: CallerId, k: Key)
    requires Inv(s) && owner in s.tasks && s.tasks[owner].phase == Running && c !in s.tasks
    ensures var t := Start(s, c, k);
      && (t.tasks[c].slot == s.tasks[owner].slot <==> k == s.tasks[owner].key)
      && (k == s.tasks[owner].key ==> t.reg.calls == s.reg.calls && t.tasks[c].phase == Awaiting)
  {
    var t := Start(s, c, k);
    var o := s.tasks[owner];
    if t.tasks[c].slot == o.slot && k in s.reg.table {
      assert s.reg.calls[s.reg.table[k]] == k;
    }
  }

  /** A key is registered exactly when an owner with that key
      is running `func`, and at most one such owner exists. */
  lemma InFlightIffOwnerRunning(s: State, k: Key)
    requires Inv(s)
    ensures k in s.reg.table <==> exists c :: c in s.tasks && s.tasks[c].key == k && s.tasks[c].phase == Running
    ensures forall c, d | c in s.tasks && d in s.tasks && s.tasks[c] .phase == Running && s.tasks[d].phase == Running
                          && s.tasks[c].key == k && s.tasks[d].key == k :: c == d
  {
    if k in s.reg.table {
      var c :| c in s.tasks && s.tasks[c] == Task(k, s.reg.table[k], Running);
      assert s.tasks[c].key == k && s.tasks[c].phase == Running;
    }
  }

  /** The owner's completion settles its future, which was pending, exactly
      once with the outcome of `func`, and deletes its own key and no
      other entry, in the same step; the log is untouched. */
  lemma FinishSettlesOnce(s: State, c: CallerId, o: Outcome)
    requires Inv(s) && CanFinish(s, c)
    ensures var task := s.tasks[c]; var t := Finish(s, c, o);
      && s.reg.futures[task.slot] == None
      && t.reg.futures == s.reg.futures[task.slot := Some(o)]
      && task.key in s.reg.table
      && t.reg.table == s.reg.table - {task.key}
      && t.reg.calls == s.reg.calls
  {
  }

  /** Removal precedes delivery: a task resumes only from a future that no
      key is registered to any more, and returns that future's outcome. */
  lemma ResumeAfterRemoval(s: State, c: CallerId)
    requires Inv(s) && CanResume(s, c)
    ensures var slot := s.tasks[c].slot; var t := Resume(s, c);
      && (forall k | k in t.reg.table :: t.reg.table[k] != slot)
      && t.tasks == s.tasks[c := s.tasks[c].(phase := Returned(s.reg.futures[slot].value))]
      && t.reg == s.reg
  {
  }

  /** Fan-out: tasks bound to one future were called with the same
      key, and those that returned returned the same outcome. */
  lemma SameFutureSameOutcome(s: State, c: CallerId, d: CallerId)
    requires Inv(s) && c in s.tasks && d in s.tasks && s.tasks[c].slot == s.tasks[d].slot
    ensures s.tasks[c].key == s.tasks[d].key
    ensures s.tasks[c].phase.Returned? && s.tasks[d].phase.Returned? ==> s.tasks[c].phase == s.tasks[d].phase
  {
  }

  /** Whatever `func` ends with, cancellation included, the owner's
      completion lets every waiter on its future resume with that outcome. */
  lemma FinishReleasesWaiters(s: State, owner: CallerId, o: Outcome, c: CallerId)
    requires Inv(s) && CanFinish(s, owner)
    requires c in s.tasks && s.tasks[c].phase == Awaiting && s.tasks[c].slot == s.tasks[owner].slot
    ensures CanResume(Finish(s, owner, o), c)
    ensures Resume(Finish(s, owner, o), c).tasks[c].phase == Returned(o)
  {
  }

  /** A waiter never waits on a future nobody will settle: either the future
      is settled or its owner is still running `func`. */
  lemma WaiterNotStranded(s: State, c: CallerId)
    requires Inv(s) && c in s.tasks && s.tasks[c].phase == Awaiting
    ensures CanResume(s, c) || exists d :: d in s.tasks && s.tasks[d] == Task(s.tasks[c].key, s.tasks[c].slot, Running)
  {
    var task := s.tasks[c];
    if !CanResume(s, c) {
      assert s.reg.futures[task.slot] == None;
      assert s.reg.table[task.key] == task.slot;
    }
  }

  /** Once no execution for a key is running, the next call with it
      invokes `func` afresh: overlapping calls are coalesced, sequential
      ones are not. */
  lemma IdleKeyInvokesAfresh(s: State, c: CallerId, k: Key)
    requires Inv(s) && c !in s.tasks
    requires forall d | d in s.tasks && s.tasks[d].phase == Running :: s.tasks[d].key != k
    ensures Start(s, c, k).reg.calls == s.reg.calls + [k]
    ensures Start(s, c, k).tasks[c].phase == Running
  {
  }

  /** When no owner is running, `cache` is empty. */
  lemma AllSettledRegistryEmpty(s: State)
    requires Inv(s)
    requires forall d | d in s.tasks :: s.tasks[d].phase != Running
    ensures s.reg.table == map[]
  {
  }

  // ---------------------------------------------------------------------
  // Properties of whole schedules

  /** One step appends to the log, never changes a settled future, and never
      changes a task that has returned. */
  lemma StepMonotone(s: State, e: Event)
    requires Inv(s) && Step(s, e).Some?
    ensures var t := Step(s, e).value;
      && s.reg.calls <= t.reg.calls
      && SettledStay(s.reg.futures, t.reg.futures)
      && (forall c | c in s.tasks :: c in t.tasks && (s.tasks[c].phase.Returned? ==> t.tasks[c] == s.tasks[c]))
  {
  }

  /** Along any schedule, invocations are only appended to the log, a
      settled future keeps its outcome, and a task that returned keeps its
      outcome: each future is settled at most once. */
  lemma {:induction false} RunMonotone(s: State, schedule: seq<Event>)
    requires Inv(s) && Run(s, schedule).Some?
    ensures var t := Run(s, schedule).value;
      && s.reg.calls <= t.reg.calls
      && SettledStay(s.reg.futures, t.reg.futures)
      && (forall c | c in s.tasks :: c in t.tasks && (s.tasks[c].phase.Returned? ==> t.tasks[c] == s.tasks[c]))
    decreases |schedule|
  {
    if schedule != [] {
      var m := Step(s, schedule[0]).value;
      StepMonotone(s, schedule[0]);
      StepKeepsInv(s, schedule[0]);
      RunMonotone(m, schedule[1..]);
    }
  }

  // ---------------------------------------------------------------------
  // The wrapper as an object

  /** The closure of `memoized`: the `cache` dictionary, the futures it has
      created, the log of invocations of `func`, and where each call is
      suspended. Each method is one atomic stretch of one call. */
  class Memoized {
    var cache: map<Key, SlotId>
    var futures: seq<Option<Outcome>>
    var calls: seq<Key>
    var tasks: map<CallerId, Task>

    function Model(): State
      reads this
    {
      State(Registry(cache, futures, calls), tasks)
    }

    ghost predicate Valid()
      reads this
    {
      Inv(Model())
    }

    /** `memoize_concurrent(func)`: `cache = {}`. */
    constructor ()
      ensures Valid() && Model() == Init()
    {
      cache := map[];
      futures := [];
      calls := [];
      tasks := map[];
      InitInv();
    }

    /** `memoized(*args, **kwargs)` up to its first await. */
    method Call(c: CallerId, args: seq<Val>, kwargs: seq<(string, Val)>)
      requires Valid() && c !in tasks
      modifies this
      ensures Valid() && Model() == Start(old(Model()), c, MakeKey(args, kwargs))
    {
      var key := MakeKey(args, kwargs);
      StartKeepsInv(Model(), c, key);
      var future: SlotId;
      if key in cache {
        future := cache[key];
        tasks := tasks[c := Task(key, future, Awaiting)];
      } else {
        future := |futures|;
        futures := futures + [None];
        cache := cache[key := future];
        calls := calls + [key];
        tasks := tasks[c := Task(key, future, Running)];
      }
    }

    /** The owner's `await func(...)` ends with `o`: `set_result` for a value,
        `set_exception` for an exception or cancellation, then `del`. */
    method Complete(c: CallerId, o: Outcome)
      requires Valid() && CanFinish(Model(), c)
      modifies this
      ensures Valid() && Model() == Finish(old(Model()), c, o)
    {
      FinishKeepsInv(Model(), c, o);
      var task := tasks[c];
      futures := futures[task.slot := Some(o)];
      cache := cache - {task.key};
      tasks := tasks[c := task.(phase := Awaiting)];
    }

    /** `return await future` on a settled future. */
    method Wake(c: CallerId) returns (o: Outcome)
      requires Valid() && CanResume(Model(), c)
      modifies this
      ensures Valid() && Model() == Resume(old(Model()), c)
      ensures Some(o) == old(futures)[old(tasks)[c].slot]
    {
      ResumeKeepsInv(Model(), c);
      var task := tasks[c];
      o := futures[task.slot].value;
      tasks := tasks[c := task.(phase := Returned(o))];
    }
  }
}
