/**
 A C# program and its native client together: what the program makes of the results its calls bring decides
 whether the client's strings are freed.
 */
module CsEndToEnd {
  import opened Common
  import opened Bags
  import Native = Machine
  import Calls
  import Lifecycle
  import Ownership
  import CsAsync
  import CsResults

  /** The token of a leaked reference is the get that it was given to. */
  datatype State = State(native: Native.State, client: CsAsync.State)

  /**
   Deliver: a native call hands over its result to the callback of a managed call. DisposeRef: the program disposes
   what a completed get gave it. Nothing else gives a result back. The native client may be destroyed whenever the
   machine allows it, whatever the managed client is doing.
   */
  datatype Step =
    | Inside(step: Native.Step)
    | Managed(action: CsAsync.Step)
    | Deliver(call: CsAsync.CallId, id: Native.OpId)
    | DisposeRef(call: CsAsync.CallId)

  function ResultFor(op: Native.Op, id: Native.OpId): CsAsync.NativeResult {
    if op.phase.Returning? && op.phase.answer.Found? then CsAsync.NativeResult(true, Some(id))
    else CsAsync.NativeResult(op.phase.Returning? && op.phase.answer.Stored?, None)
  }

  predicate Enabled(s: State, step: Step) {
    match step
    case Inside(step) => Native.Enabled(s.native, step) && !step.Release? && !step.Finish?
    case Managed(step) => CsAsync.Enabled(s.client, step) && !step.Callback? && !step.DisposeRef?
    case Deliver(call, id) =>
      && Native.Enabled(s.native, Native.Finish(id))
      && CsAsync.Enabled(s.client, CsAsync.Callback(call, ResultFor(s.native.ops[id], id)))
      && (s.native.ops[id].call.Get? <==> s.client.ops[call].isGet)
    case DisposeRef(call) => CsAsync.Enabled(s.client, CsAsync.DisposeRef(call))
  }

  /** What disposing the reference of a call gives back. */
  function GivenBack(op: CsAsync.Op): Option<CsAsync.NativeRef> {
    if op.refDisposed then None else op.result.ref
  }

  function Release(native: Native.State, token: Option<CsAsync.NativeRef>): Native.State {
    if token.Some? && token.value in native.results then Native.DoRelease(native, token.value) else native
  }

  ghost function Apply(s: State, step: Step): State
    requires Enabled(s, step)
  {
    match step
    case Inside(step) => s.(native := Native.Apply(s.native, step))
    case Managed(step) => s.(client := CsAsync.Apply(s.client, step))
    case Deliver(call, id) =>
      State(Native.DoFinish(s.native, id), CsAsync.DoCallback(s.client, call, ResultFor(s.native.ops[id], id)))
    case DisposeRef(call) =>
      State(Release(s.native, GivenBack(s.client.ops[call])), CsAsync.DoDisposeRef(s.client, call))
  }

  ghost predicate Init(s: State) {
    Native.Init(s.native) && CsAsync.Init(s.client)
  }

  ghost predicate Run(s: State, steps: seq<Step>)
    decreases |steps|
  {
    steps == [] ||
    var n := |steps| - 1;
    Run(s, steps[..n]) && Enabled(After(s, steps[..n]), steps[n])
  }

  ghost function After(s: State, steps: seq<Step>): State
    decreases |steps|
  {
    if steps == [] then s
    else
      var n := |steps| - 1;
      var t := After(s, steps[..n]);
      if Enabled(t, steps[n]) then Apply(t, steps[n]) else t
  }

  // ------------------------------------------------------------------ what the two sides say of each other

  function Found(results: map<Native.OpId, Native.GetResult>, r: CsAsync.NativeRef): nat {
    if r in results && results[r].value.Some? then 1 else 0
  }

  function Owed(results: map<Native.OpId, Native.GetResult>, r: CsAsync.NativeRef): nat {
    if r in results && results[r].arc.Some? then 1 else 0
  }

  /** Each reference was delivered once, and is owed until it has been released once. */
  ghost predicate Tied(s: State) {
    forall r ::
      && s.client.delivered[r] == Found(s.native.results, r)
      && s.client.delivered[r] == s.client.released[r] + Owed(s.native.results, r)
  }

  ghost predicate Inv(s: State) {
    && Ownership.Inv(s.native) && Lifecycle.Inv(s.native)
    && CsResults.AllSettling(s.client) && CsResults.ResultsConserved(s.client) && Tied(s)
  }

  lemma InsideKeepsInv(s: State, step: Native.Step)
    requires Inv(s) && Enabled(s, Inside(step))
    ensures Inv(Apply(s, Inside(step)))
  {
    Ownership.StepKeepsInv(s.native, step);
    Lifecycle.StepKeepsInv(s.native, step);
    InsideKeepsResults(s.native, step);
  }

  lemma InsideKeepsResults(native: Native.State, step: Native.Step)
    requires Native.Enabled(native, step) && !step.Release? && !step.Finish?
    ensures Native.Apply(native, step).results == native.results
  {
    if Calls.CallStep(step) {
      Calls.CallContinues(native, step, Native.Apply(native, step));
    } else if !step.Begin? {
      Calls.OtherStepKeepsResults(native, step, Native.Apply(native, step));
    }
  }

  lemma ManagedKeepsInv(s: State, step: CsAsync.Step)
    requires Inv(s) && Enabled(s, Managed(step))
    ensures Inv(Apply(s, Managed(step)))
  {
    CsResults.StepKeepsSettling(s.client, step);
    CsResults.StepConserves(s.client, step);
    ManagedKeepsTallies(s.client, step);
  }

  lemma ManagedKeepsTallies(client: CsAsync.State, step: CsAsync.Step)
    requires CsAsync.Enabled(client, step) && !step.Callback? && !step.DisposeRef?
    ensures
      var t := CsAsync.Apply(client, step);
      t.delivered == client.delivered && t.released == client.released
  {
  }

  lemma DeliverKeepsInv(s: State, call: CsAsync.CallId, id: Native.OpId)
    requires Inv(s) && Enabled(s, Deliver(call, id))
    ensures Inv(Apply(s, Deliver(call, id)))
  {
    var result := ResultFor(s.native.ops[id], id);
    Ownership.StepKeepsInv(s.native, Native.Finish(id));
    Lifecycle.StepKeepsInv(s.native, Native.Finish(id));
    CsResults.StepKeepsSettling(s.client, CsAsync.Callback(call, result));
    CsResults.StepConserves(s.client, CsAsync.Callback(call, result));
    DeliverTies(s, call, id);
  }

  lemma DeliverTies(s: State, call: CsAsync.CallId, id: Native.OpId)
    requires Tied(s) && Enabled(s, Deliver(call, id)) && id !in s.native.results
    ensures Tied(Apply(s, Deliver(call, id)))
  {
    FinishAddsResult(s.native, id);
    var t := Apply(s, Deliver(call, id));
    if s.native.ops[id].call.Get? {
      ResultTies(s, id, Native.ResultOf(s.native.ops[id].phase.answer), ResultFor(s.native.ops[id], id).ref, t);
    }
  }

  /** A new result, delivered as what it holds, if it holds anything. */
  lemma ResultTies(s: State, id: Native.OpId, result: Native.GetResult, ref: Option<CsAsync.NativeRef>, t: State)
    requires Tied(s) && id !in s.native.results && t.native.results == s.native.results[id := result]
    requires result.arc == result.value && ref == if result.arc.Some? then Some(id) else None
    requires t.client.delivered == s.client.delivered + CsAsync.Refs(ref) && t.client.released == s.client.released
    ensures Tied(t)
  {
    forall r ensures t.client.delivered[r] == Found(t.native.results, r)
                     && t.client.delivered[r] == t.client.released[r] + Owed(t.native.results, r)
    {
      assert s.client.delivered[r] == Found(s.native.results, r);
    }
  }

  lemma FinishAddsResult(native: Native.State, id: Native.OpId)
    requires Native.Enabled(native, Native.Finish(id))
    ensures
      var results := Native.DoFinish(native, id).results;
      && (native.ops[id].call.Get? ==> results == native.results[id := Native.ResultOf(native.ops[id].phase.answer)])
      && (native.ops[id].call.Set? ==> results == native.results)
  {
  }

  /** What a reference still to be disposed would release is owed. */
  lemma ReachableIsOwed(s: State, call: CsAsync.CallId)
    requires Inv(s) && Enabled(s, DisposeRef(call)) && GivenBack(s.client.ops[call]).Some?
    ensures
      var r := GivenBack(s.client.ops[call]).value;
      r in s.native.results && s.native.results[r].arc.Some?
  {
    var op := s.client.ops[call];
    var r := GivenBack(op).value;
    assert CsResults.Settling(op) && CsAsync.ByCallback in op.attempts;
    BagRemove(s.client.ops, CsResults.Reachable, call);
    assert CsResults.Reachable(op)[r] == 1;
    assert s.client.delivered[r] >= s.client.released[r] + 1;
    assert s.client.delivered[r] == s.client.released[r] + Owed(s.native.results, r);
  }

  lemma DisposeRefKeepsInv(s: State, call: CsAsync.CallId)
    requires Inv(s) && Enabled(s, DisposeRef(call))
    ensures Inv(Apply(s, DisposeRef(call)))
  {
    CsResults.StepKeepsSettling(s.client, CsAsync.DisposeRef(call));
    CsResults.StepConserves(s.client, CsAsync.DisposeRef(call));
    var token := GivenBack(s.client.ops[call]);
    if token.Some? {
      ReachableIsOwed(s, call);
      Ownership.StepKeepsInv(s.native, Native.Release(token.value));
      Lifecycle.StepKeepsInv(s.native, Native.Release(token.value));
    }
    DisposeRefTies(s, call);
  }

  lemma DisposeRefTies(s: State, call: CsAsync.CallId)
    requires Tied(s) && Enabled(s, DisposeRef(call))
    requires
      var token := GivenBack(s.client.ops[call]);
      token.Some? ==> token.value in s.native.results && s.native.results[token.value].arc.Some?
    ensures Tied(Apply(s, DisposeRef(call)))
  {
    var t := Apply(s, DisposeRef(call));
    forall r ensures t.client.delivered[r] == Found(t.native.results, r)
                     && t.client.delivered[r] == t.client.released[r] + Owed(t.native.results, r)
    {
      assert s.client.delivered[r] == Found(s.native.results, r);
      assert s.client.delivered[r] == s.client.released[r] + Owed(s.native.results, r);
    }
  }

  lemma StepKeepsInv(s: State, step: Step)
    requires Inv(s) && Enabled(s, step)
    ensures Inv(Apply(s, step))
  {
    match step
    case Inside(step) => InsideKeepsInv(s, step);
    case Managed(step) => ManagedKeepsInv(s, step);
    case Deliver(call, id) => DeliverKeepsInv(s, call, id);
    case DisposeRef(call) => DisposeRefKeepsInv(s, call);
  }

  lemma {:induction false} AlwaysTied(s: State, steps: seq<Step>)
    requires Init(s) && Run(s, steps)
    ensures Inv(After(s, steps))
    decreases |steps|
  {
    if steps == [] {
      Ownership.ReferenceConservation(Native.Free, s.native, []);
      Lifecycle.NoUseAfterDestroy(Native.Free, s.native, []);
      CsResults.ResultConservation(false, s.client, []);
    } else {
      var n := |steps| - 1;
      AlwaysTied(s, steps[..n]);
      StepKeepsInv(After(s, steps[..n]), steps[n]);
    }
  }

  // ------------------------------------------------------------------ the end of a program

  /**
   Everything a program can do is done: its calls have ended, it has disposed every reference it can reach, the
   native client is destroyed, its own calls have ended, and the cache has dropped what it retired.
   */
  ghost predicate Over(s: State) {
    && CsAsync.Quiet(s.client) && CsResults.AllDisposed(s.client)
    && !s.native.box && s.native.retired == multiset{}
    && forall id :: id in s.native.ops ==> !Native.Pending(s.native.ops[id])
  }

  /**
   At the end of a program no string is left if and only if no get that succeeded had its token fire before its
   callback disposed the registration. Every reference so lost keeps its string, for good.
   */
  lemma {:induction false} ProgramLeavesLostResults(s: State, steps: seq<Step>)
    requires Init(s) && Run(s, steps) && Over(After(s, steps))
    ensures
      var t := After(s, steps);
      t.native.heap == map[] <==> forall call :: call in t.client.ops ==> !CsResults.LostToToken(t.client.ops[call])
  {
    AlwaysTied(s, steps);
    OverLeavesLost(After(s, steps));
  }

  lemma OverLeavesLost(t: State)
    requires Inv(t) && Over(t)
    ensures t.native.heap == map[] <==>
              forall call :: call in t.client.ops ==> !CsResults.LostToToken(t.client.ops[call])
  {
    CsResults.UnreleasedAreLost(t.client);
    if t.client.delivered == t.client.released {
      forall id | id in t.native.results ensures t.native.results[id].arc.None? {
        assert t.client.delivered[id] == t.client.released[id] + Owed(t.native.results, id);
      }
      Ownership.GoneMeansFreed(t.native);
    }
    if t.native.heap == map[] {
      NoStringNothingOwed(t);
    }
  }

  /** What is owed keeps its string allocated. */
  lemma OwedIsAllocated(t: State, r: CsAsync.NativeRef)
    requires Inv(t)
    ensures Owed(t.native.results, r) > 0 ==> t.native.results[r].arc.value.loc in t.native.heap
  {
    if Owed(t.native.results, r) > 0 {
      Ownership.ResultOwned(t.native, r);
    }
  }

  lemma NoStringNothingOwed(t: State)
    requires Inv(t) && t.native.heap == map[]
    ensures t.client.delivered == t.client.released
  {
    forall r ensures t.client.delivered[r] == t.client.released[r] {
      OwedIsAllocated(t, r);
      assert t.client.delivered[r] == t.client.released[r] + Owed(t.native.results, r);
    }
  }
}
