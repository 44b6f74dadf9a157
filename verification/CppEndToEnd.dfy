/**
 A C++ program and its native client together: every wrapper of a result holds the reference that the machine
 counts for it, so the program's ending frees the client's strings.
 */
module CppEndToEnd {
  import opened Common
  import Native = Machine
  import Wrappers = MoveOnly
  import CppAsync
  import Calls
  import Lifecycle
  import Ownership

  /** The token of a leaked reference is the get that it was given to. */
  datatype State = State(native: Native.State, pool: Wrappers.Pool)

  /**
   Wrap: a get hands over its result, which is wrapped at once. Wrappers: the program moves, assigns or destroys
   wrappers. Nothing else gives a result back.
   */
  datatype Step =
    | Inside(step: Native.Step)
    | Wrap(slot: nat, id: Native.OpId)
    | Handle(op: Wrappers.Op)

  /** What the wrapper made by the callback of this call owns. */
  function TokenOf(op: Native.Op, id: Native.OpId): Option<Wrappers.Handle> {
    if op.phase.Returning? then CppAsync.Wrapped(id, Native.ResultOf(op.phase.answer)).arc else None
  }

  predicate Enabled(s: State, step: Step) {
    match step
    case Inside(step) =>
      Native.Enabled(s.native, step) && !step.Release? && (step.Finish? ==> s.native.ops[step.id].call.Set?)
    case Wrap(slot, id) =>
      && Native.Enabled(s.native, Native.Finish(id)) && s.native.ops[id].call.Get?
      && Wrappers.Enabled(s.pool, Wrappers.Acquire(slot, TokenOf(s.native.ops[id], id)))
    case Handle(op) => !op.Acquire? && Wrappers.Enabled(s.pool, op)
  }

  /** What an operation on wrappers gives back. */
  function GivenBack(p: Wrappers.Pool, op: Wrappers.Op): Option<Wrappers.Handle>
    requires Wrappers.Enabled(p, op)
  {
    if op.Destruct? || (op.MoveAssign? && op.slot != op.src) then p.slots[op.slot] else None
  }

  function Release(native: Native.State, token: Option<Wrappers.Handle>): Native.State {
    if token.Some? && token.value in native.results then Native.DoRelease(native, token.value) else native
  }

  ghost function Apply(s: State, step: Step): State
    requires Enabled(s, step)
  {
    match step
    case Inside(step) => s.(native := Native.Apply(s.native, step))
    case Wrap(slot, id) =>
      State(Native.DoFinish(s.native, id),
            Wrappers.Apply(s.pool, Wrappers.Acquire(slot, TokenOf(s.native.ops[id], id))))
    case Handle(op) => State(Release(s.native, GivenBack(s.pool, op)), Wrappers.Apply(s.pool, op))
  }

  ghost predicate Init(s: State) {
    Native.Init(s.native) && s.pool == Wrappers.Pool(map[], {}, [])
  }

  ghost predicate Run(s: State, steps: seq<Step>)
    decreases |steps|
  {
    steps == [] ||
    var n := |steps| - 1;
    Run(s, steps[..n]) && Enabled(After(s, steps[..n]), steps[n])
  }

  ghost function After(s: State, steps: seq<Step>): State
    decreases |steps|
  {
    if steps == [] then s
    else
      var n := |steps| - 1;
      var t := After(s, steps[..n]);
      if Enabled(t, steps[n]) then Apply(t, steps[n]) else t
  }

  /** The results that are still to be released are those of handles issued and not yet given back. */
  ghost predicate Tied(s: State) {
    && (forall h :: h in s.pool.issued ==> h in s.native.results)
    && (forall id :: id in s.native.results ==>
          (s.native.results[id].arc.Some? <==> id in s.pool.issued && id !in s.pool.released))
  }

  ghost predicate Inv(s: State) {
    Ownership.Inv(s.native) && Lifecycle.Inv(s.native) && Wrappers.UniquelyOwned(s.pool) && Tied(s)
  }

  lemma InsideKeepsInv(s: State, step: Native.Step)
    requires Inv(s) && Enabled(s, Inside(step))
    ensures Inv(Apply(s, Inside(step)))
  {
    Ownership.StepKeepsInv(s.native, step);
    Lifecycle.StepKeepsInv(s.native, step);
    InsideKeepsResults(s.native, step);
  }

  lemma InsideKeepsResults(native: Native.State, step: Native.Step)
    requires Native.Enabled(native, step) && !step.Release? && (step.Finish? ==> native.ops[step.id].call.Set?)
    ensures Native.Apply(native, step).results == native.results
  {
    if step.Finish? {
      SetKeepsResults(native, step.id);
    } else if Calls.CallStep(step) {
      Calls.CallContinues(native, step, Native.Apply(native, step));
    } else if !step.Begin? {
      Calls.OtherStepKeepsResults(native, step, Native.Apply(native, step));
    }
  }

  lemma SetKeepsResults(native: Native.State, id: Native.OpId)
    requires Native.Enabled(native, Native.Finish(id)) && native.ops[id].call.Set?
    ensures Native.DoFinish(native, id).results == native.results
  {
  }

  lemma WrapKeepsInv(s: State, slot: nat, id: Native.OpId)
    requires Inv(s) && Enabled(s, Wrap(slot, id))
    ensures Inv(Apply(s, Wrap(slot, id)))
  {
    var t := Apply(s, Wrap(slot, id));
    Ownership.StepKeepsInv(s.native, Native.Finish(id));
    Lifecycle.StepKeepsInv(s.native, Native.Finish(id));
    Wrappers.StepKeepsUnique(s.pool, Wrappers.Acquire(slot, TokenOf(s.native.ops[id], id)));
    NotIssuedNotReleased(s.pool, id);
    WrapTies(s, id, TokenOf(s.native.ops[id], id), Native.ResultOf(s.native.ops[id].phase.answer), t);
  }

  /** A new result, and a handle issued for it if there is anything to release. */
  lemma WrapTies(s: State, id: Native.OpId, token: Option<Wrappers.Handle>, result: Native.GetResult, t: State)
    requires Tied(s) && id !in s.native.results && t.native.results == s.native.results[id := result]
    requires token == (if result.arc.Some? then Some(id) else None) && id !in s.pool.released && id !in s.pool.issued
    requires t.pool.issued == (if token.Some? then s.pool.issued + {id} else s.pool.issued)
    requires t.pool.released == s.pool.released
    ensures Tied(t)
  {
  }

  lemma NotIssuedNotReleased(p: Wrappers.Pool, h: Wrappers.Handle)
    requires Wrappers.UniquelyOwned(p) && h !in p.issued
    ensures h !in p.released
  {
    assert multiset(p.released)[h] == 0;
  }

  /** The handle that an ending wrapper owns is one whose result is still to be released. */
  lemma OwnedIsUnreleased(s: State, slot: nat)
    requires Inv(s) && slot in s.pool.slots && s.pool.slots[slot].Some?
    ensures
      var h := s.pool.slots[slot].value;
      h in s.pool.issued && h !in s.pool.released && h in s.native.results && s.native.results[h].arc.Some?
  {
    Wrappers.OwnerIsUnique(s.pool, slot, slot, s.pool.slots[slot].value);
  }

  lemma HandleKeepsInv(s: State, op: Wrappers.Op)
    requires Inv(s) && Enabled(s, Handle(op))
    ensures Inv(Apply(s, Handle(op)))
  {
    Wrappers.StepKeepsUnique(s.pool, op);
    var token := GivenBack(s.pool, op);
    if token.Some? {
      OwnedIsUnreleased(s, op.slot);
      Ownership.StepKeepsInv(s.native, Native.Release(token.value));
      Lifecycle.StepKeepsInv(s.native, Native.Release(token.value));
    }
    HandleTies(s, op, token);
  }

  lemma HandleTies(s: State, op: Wrappers.Op, token: Option<Wrappers.Handle>)
    requires Tied(s) && Enabled(s, Handle(op)) && token == GivenBack(s.pool, op)
    requires token.Some? ==> token.value in s.native.results && s.native.results[token.value].arc.Some?
    ensures Tied(Apply(s, Handle(op)))
  {
    var t := Apply(s, Handle(op));
    assert t.pool.released == s.pool.released + Wrappers.Ended(token);
    assert forall h :: h in t.pool.released <==> h in s.pool.released || token == Some(h);
  }

  lemma {:induction false} AlwaysTied(s: State, steps: seq<Step>)
    requires Init(s) && Run(s, steps)
    ensures Inv(After(s, steps))
    decreases |steps|
  {
    if steps == [] {
      Ownership.ReferenceConservation(Native.Free, s.native, []);
      Lifecycle.NoUseAfterDestroy(Native.Free, s.native, []);
    } else {
      var n := |steps| - 1;
      AlwaysTied(s, steps[..n]);
      match steps[n]
      case Inside(step) => InsideKeepsInv(After(s, steps[..n]), step);
      case Wrap(slot, id) => WrapKeepsInv(After(s, steps[..n]), slot, id);
      case Handle(op) => HandleKeepsInv(After(s, steps[..n]), op);
    }
  }

  /** While a wrapper owns a result, what it views is allocated and reads what the get found. */
  lemma {:induction false} WrapperViewsAlive(s: State, steps: seq<Step>, slot: nat)
    requires Init(s) && Run(s, steps)
    requires slot in After(s, steps).pool.slots && After(s, steps).pool.slots[slot].Some?
    ensures
      var t := After(s, steps);
      var h := t.pool.slots[slot].value;
      && h in t.native.results && t.native.results[h].value.Some? && h in t.native.ops
      && t.native.ops[h].phase == Native.Finished(Native.Found(t.native.results[h].value.value))
      && var view := t.native.results[h].value.value;
      view.loc in t.native.heap && t.native.heap[view.loc].text == view.text
  {
    AlwaysTied(s, steps);
    var t := After(s, steps);
    OwnedIsUnreleased(t, slot);
    Ownership.ResultOwned(t.native, t.pool.slots[slot].value);
  }

  /**
   A program that has destroyed its client, seen its calls end and its wrappers end, has left no string behind
   once the cache has dropped what it retired: however it moved and assigned its wrappers.
   */
  lemma {:induction false} ProgramLeavesNothing(s: State, steps: seq<Step>)
    requires Init(s) && Run(s, steps)
    requires
      var t := After(s, steps);
      && t.pool.slots == map[] && !t.native.box && t.native.retired == multiset{}
      && forall id :: id in t.native.ops ==> !Native.Pending(t.native.ops[id])
    ensures After(s, steps).native.heap == map[]
  {
    AlwaysTied(s, steps);
    var t := After(s, steps);
    Wrappers.NoOwnerLeft(t.pool);
    forall id | id in t.native.results ensures t.native.results[id].arc.None? {
      assert id in t.pool.issued ==> multiset(t.pool.released)[id] == multiset(t.pool.issued)[id];
    }
    Ownership.GoneMeansFreed(t.native);
  }
}
