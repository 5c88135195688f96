/** `deduplicate_concurrent` and `memoize_concurrent` differ only in where a
    waiter awaits: `deduplicated` returns early from inside its membership
    test, `memoized` falls through to the `return await future` it shares
    with the owner. Relabelling the phases of `deduplicated` maps each of its
    runs onto a run of `memoized`, step by step, so under every schedule the
    two wrappers invoke `func` identically and every call returns the same. */
module Equivalence {
  import opened Coalesce
  import D = AioDeduplicate
  import M = AioMemoizeConcurrent

  /** Both awaiting places of `deduplicated` are the one of `memoized`. */
  function AbsPhase(p: D.Phase): M.Phase
  {
    match p
    case Running => M.Running
    case Waiting => M.Awaiting
    case Returning => M.Awaiting
    case Returned(o) => M.Returned(o)
  }

  function AbsTask(t: D.Task): M.Task
  {
    M.Task(t.key, t.slot, AbsPhase(t.phase))
  }

  function Abs(s: D.State): M.State
  {
    M.State(s.reg, map c | c in s.tasks :: AbsTask(s.tasks[c]))
  }

  function AbsResult(r: Option<D.State>): Option<M.State>
  {
    match r
    case None => None
    case Some(s) => Some(Abs(s))
  }

  lemma InitCorresponds()
    ensures Abs(D.Init()) == M.Init()
  {
    assert Abs(D.Init()).tasks == map[];
  }

  lemma OutcomesCorrespond(s: D.State)
    ensures M.Outcomes(Abs(s)) == D.Outcomes(s)
  {
    assert M.Outcomes(Abs(s)).Keys == D.Outcomes(s).Keys;
  }

  /** Relabelling commutes with updating one task. */
  lemma AbsUpdate(s: D.State, r: Registry, c: CallerId, t: D.Task)
    ensures Abs(D.State(r, s.tasks[c := t])) == M.State(r, Abs(s).tasks[c := AbsTask(t)])
  {
    var lhs := Abs(D.State(r, s.tasks[c := t])).tasks;
    var rhs := Abs(s).tasks[c := AbsTask(t)];
    assert lhs.Keys == rhs.Keys;
    assert forall d | d in lhs :: lhs[d] == rhs[d];
  }

  /** Every event is enabled in a state of `deduplicated` exactly when it is
      enabled in the corresponding state of `memoized`, and leads to
      corresponding states. */
  lemma StepCommutes(s: D.State, e: Event)
    ensures M.Step(Abs(s), e) == AbsResult(D.Step(s, e))
  {
    var a := Abs(s);
    match e
    case Call(c, args, kwargs) =>
      var k := MakeKey(args, kwargs);
      if c !in s.tasks {
        if k in s.reg.table {
          AbsUpdate(s, s.reg, c, D.Task(k, s.reg.table[k], D.Waiting));
        } else {
          AbsUpdate(s, Register(s.reg, k), c, D.Task(k, |s.reg.futures|, D.Running));
        }
      }
    case Complete(c, o) =>
      if D.CanFinish(s, c) {
        var t := s.tasks[c];
        AbsUpdate(s, Settle(s.reg, t.key, t.slot, o), c, t.(phase := D.Returning));
      }
    case Wake(c) =>
      if D.CanResume(s, c) {
        var t := s.tasks[c];
        AbsUpdate(s, s.reg, c, t.(phase := D.Returned(s.reg.futures[t.slot].value)));
      }
  }

  lemma {:induction false} RunCommutes(s: D.State, schedule: seq<Event>)
    ensures M.Run(Abs(s), schedule) == AbsResult(D.Run(s, schedule))
    decreases |schedule|
  {
    if schedule != [] {
      StepCommutes(s, schedule[0]);
      if D.Step(s, schedule[0]).Some? {
        RunCommutes(D.Step(s, schedule[0]).value, schedule[1..]);
      }
    }
  }

  /** Under every schedule of steps, the two wrappers accept the same steps,
      invoke `func` with the same arguments in the same order, hold the same
      registry and futures, and every call returns the same outcome. */
  lemma SameBehaviour(schedule: seq<Event>)
    ensures D.Run(D.Init(), schedule).Some? <==> M.Run(M.Init(), schedule).Some?
    ensures D.Run(D.Init(), schedule).Some? ==>
      && D.Run(D.Init(), schedule).value.reg == M.Run(M.Init(), schedule).value.reg
      && D.Outcomes(D.Run(D.Init(), schedule).value) == M.Outcomes(M.Run(M.Init(), schedule).value)
  {
    InitCorresponds();
    RunCommutes(D.Init(), schedule);
    if D.Run(D.Init(), schedule).Some? {
      OutcomesCorrespond(D.Run(D.Init(), schedule).value);
    }
  }
}
