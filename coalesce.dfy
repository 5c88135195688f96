/** Shared vocabulary of the two wrappers `deduplicate_concurrent` and
    `memoize_concurrent`: call keys, outcomes, the scheduler's events, and the
    registry each wrapper keeps in its closure (the key-to-future dictionary,
    the futures themselves and the log of invocations of the wrapped function). */
module Coalesce {

  /** An opaque Python object, compared by value. */
  type Val = int

  /** Identifies one call of the wrapper (one asyncio task). */
  type CallerId = nat

  /** Identifies one `asyncio.Future` created by an owner: its index in the
      registry's list of futures. */
  type SlotId = nat

  datatype Option<T> = None | Some(value: T)

  /** `(args, tuple(kwargs.items()))`: positional arguments and keyword pairs,
      the latter in the order the caller passed them. */
  datatype Key = Key(args: seq<Val>, kwargs: seq<(string, Val)>)

  function MakeKey(args: seq<Val>, kwargs: seq<(string, Val)>): Key
  {
    Key(args, kwargs)
  }

  /** How one execution of the wrapped function ends: a return value, a raised
      exception, or cancellation of the owning task. */
  datatype Outcome = Value(value: Val) | Error(exception: Val) | Cancelled

  /** One atomic stretch of some task, as chosen by the event loop.
      Call: a new task enters the wrapper and runs up to its first await.
      Complete: the owner's `await func(...)` ends with the given outcome and the
      owner runs its except/else/finally block.
      Wake: a task suspended on a settled future resumes and returns. */
  datatype Event =
    | Call(caller: CallerId, args: seq<Val>, kwargs: seq<(string, Val)>)
    | Complete(caller: CallerId, outcome: Outcome)
    | Wake(caller: CallerId)

  /** The closure state of one wrapped function.
      table: the dictionary from key to the future of the execution in flight;
      futures: every future created so far, None while pending;
      calls: the invocations of the wrapped function, in order. */
  datatype Registry = Registry(table: map<Key, SlotId>, futures: seq<Option<Outcome>>, calls: seq<Key>)

  function EmptyRegistry(): Registry
  {
    Registry(map[], [], [])
  }

  predicate Settled(futures: seq<Option<Outcome>>, slot: SlotId)
  {
    slot < |futures| && futures[slot].Some?
  }

  /** Every future was created by exactly one invocation (`calls[i]` is the key
      future i was created for); a key is registered exactly to a pending future
      created for it, and every pending future is registered under its key. */
  ghost predicate RegistryInv(r: Registry)
  {
    && |r.calls| == |r.futures|
    && (forall k | k in r.table ::
          r.table[k] < |r.futures| && r.calls[r.table[k]] == k && r.futures[r.table[k]] == None)
    && (forall i | 0 <= i < |r.futures| && r.futures[i] == None ::
          r.calls[i] in r.table && r.table[r.calls[i]] == i)
  }

  /** The owner's synchronous setup: create a pending future, store it under
      the key, and invoke the wrapped function with the arguments. */
  function Register(r: Registry, k: Key): Registry
  {
    Registry(r.table[k := |r.futures|], r.futures + [None], r.calls + [k])
  }

  /** The owner's except/else/finally block: `set_result` or `set_exception`
      on its future, then `del` of its key. */
  function Settle(r: Registry, k: Key, slot: SlotId, o: Outcome): Registry
    requires slot < |r.futures|
  {
    Registry(r.table - {k}, r.futures[slot := Some(o)], r.calls)
  }

  lemma RegisterKeepsInv(r: Registry, k: Key)
    requires RegistryInv(r) && k !in r.table
    ensures RegistryInv(Register(r, k))
  {
    var r' := Register(r, k);
    forall i | 0 <= i < |r'.futures| && r'.futures[i] == None
      ensures r'.calls[i] in r'.table && r'.table[r'.calls[i]] == i
    {
      if i < |r.futures| {
        assert r.futures[i] == None;
        assert r.calls[i] != k;
      }
    }
  }

  lemma SettleKeepsInv(r: Registry, k: Key, slot: SlotId, o: Outcome)
    requires RegistryInv(r) && k in r.table && r.table[k] == slot
    ensures RegistryInv(Settle(r, k, slot, o))
  {
  }

  /** g is a later list of futures than f: futures are only added, and a
      settled future keeps its outcome. */
  ghost predicate SettledStay(f: seq<Option<Outcome>>, g: seq<Option<Outcome>>)
  {
    |f| <= |g| && forall i | 0 <= i < |f| && f[i].Some? :: g[i] == f[i]
  }
}
