/**
 What becomes of the references that native gets leak into results, when their tasks may be cancelled
 (bindings/csharp/KvStore/KvStoreAsyncClient.cs).
 */
module CsResults {
  import opened Bags
  import opened CsAsync
  import opened CsOneCall

  predicate CallbackStarted(stage: Stage) {
    stage.Called? || stage.Unregistered? || stage.Settled? || stage.Untracked? || stage.Freed?
  }

  predicate CallbackSettled(stage: Stage) {
    stage.Settled? || stage.Untracked? || stage.Freed?
  }

  /** The first to try settles the task, and nobody after. */
  predicate FirstWins(op: Op) {
    match op.task
    case Waiting => op.attempts == []
    case Cancelled => op.attempts != [] && op.attempts[0] == ByCancel
    case Completed => op.attempts != [] && op.attempts[0] == ByCallback && (op.isGet || op.result.ok)
    case Faulted => op.attempts != [] && op.attempts[0] == ByCallback && !op.isGet && !op.result.ok
  }

  predicate Settling(op: Op) {
    && FirstWins(op)
    && (ByCallback in op.attempts <==> CallbackSettled(op.stage))
    && (op.refDisposed ==> op.task == Completed && op.isGet)
    && (!CallbackStarted(op.stage) ==> op.result.ref.None?)
    && (op.result.ref.Some? <==> op.isGet && op.result.ok)
    && (op.cancelFired <==> op.task == Cancelled)
  }

  ghost predicate AllSettling(s: State) {
    forall id :: id in s.ops ==> Settling(s.ops[id])
  }

  /** In a callback that has yet to offer it to the task. */
  function InCallback(op: Op): multiset<NativeRef> {
    if CallbackSettled(op.stage) then multiset{} else Refs(op.result.ref)
  }

  /** In an AsyncValueRef that the caller can reach through the completed task, and has not disposed. */
  function Reachable(op: Op): multiset<NativeRef> {
    if CallbackSettled(op.stage) && op.task == Completed && !op.refDisposed then Refs(op.result.ref) else multiset{}
  }

  /** In an AsyncValueRef that lost to an earlier cancellation: nobody can reach it. */
  function Lost(op: Op): multiset<NativeRef> {
    if CallbackSettled(op.stage) && op.attempts != [] && op.attempts[0] == ByCancel then Refs(op.result.ref)
    else multiset{}
  }

  /** Delivered results are released, or exactly one of in a callback, reachable, or lost to cancellation. */
  ghost predicate ResultsConserved(s: State) {
    forall r :: s.delivered[r] ==
      s.released[r] + Bag(s.ops, InCallback)[r] + Bag(s.ops, Reachable)[r] + Bag(s.ops, Lost)[r]
  }

  /** Before the callback: nothing has been offered to the task but, perhaps, a cancellation. */
  predicate Early(step: Step) {
    step.Create? || step.Number? || step.Alloc? || step.Track? || step.Read? || step.CallNative?
  }

  lemma EarlyKeepsSettling(s: State, step: Step)
    requires AllSettling(s) && Enabled(s, step) && Early(step)
    ensures AllSettling(Apply(s, step))
  {
    EarlySettles(s, Apply(s, step), step);
  }

  lemma EarlySettles(s: State, t: State, step: Step)
    requires Enabled(s, step) && Early(step) && t == Apply(s, step)
    requires step.id in s.ops ==> Settling(s.ops[step.id])
    ensures step.id in t.ops && t.ops == s.ops[step.id := t.ops[step.id]] && Settling(t.ops[step.id])
  {
  }

  lemma StepKeepsSettling(s: State, step: Step)
    requires AllSettling(s) && Enabled(s, step)
    ensures AllSettling(Apply(s, step))
  {
    if Early(step) {
      EarlyKeepsSettling(s, step);
    } else if !Disposes(step) {
      LateKeepsSettling(s, Apply(s, step), step);
    }
  }

  lemma LateKeepsSettling(s: State, t: State, step: Step)
    requires AllSettling(s) && Enabled(s, step) && !Early(step) && !Disposes(step) && t == Apply(s, step)
    ensures AllSettling(t)
  {
    assert t.ops == s.ops[step.id := t.ops[step.id]];
    LateSettles(s, t, step);
  }

  lemma LateSettles(s: State, t: State, step: Step)
    requires Enabled(s, step) && !Early(step) && !Disposes(step) && t == Apply(s, step)
    requires step.id in s.ops && step.id in t.ops && Settling(s.ops[step.id])
    ensures Settling(t.ops[step.id])
  {
  }

  /** Each task settles at most once. */
  lemma SettledForGood(s: State, step: Step, id: CallId)
    requires Enabled(s, step) && id in s.ops && s.ops[id].task != Waiting
    ensures id in Apply(s, step).ops && Apply(s, step).ops[id].task == s.ops[id].task
  {
  }

  lemma OneOpCounts(ops: map<CallId, Op>, id: CallId, op: Op, after: map<CallId, Op>, r: NativeRef)
    requires after == ops[id := op]
    ensures Bag(after, InCallback)[r] + (if id in ops then InCallback(ops[id])[r] else 0)
            == Bag(ops, InCallback)[r] + InCallback(op)[r]
    ensures Bag(after, Reachable)[r] + (if id in ops then Reachable(ops[id])[r] else 0)
            == Bag(ops, Reachable)[r] + Reachable(op)[r]
    ensures Bag(after, Lost)[r] + (if id in ops then Lost(ops[id])[r] else 0)
            == Bag(ops, Lost)[r] + Lost(op)[r]
  {
    BagPut(ops, InCallback, id, op);
    BagPut(ops, Reachable, id, op);
    BagPut(ops, Lost, id, op);
  }

  function Fates(op: Op, r: NativeRef): nat {
    InCallback(op)[r] + Reachable(op)[r] + Lost(op)[r]
  }

  ghost function FatesAt(s: State, id: CallId, r: NativeRef): nat {
    if id in s.ops then Fates(s.ops[id], r) else 0
  }

  /** One call changes; what it gains is delivered to it, and what it loses it has released. */
  lemma OpConserves(s: State, t: State, id: CallId)
    requires ResultsConserved(s) && id in t.ops && t.ops == s.ops[id := t.ops[id]]
    requires forall r ::
      t.delivered[r] + FatesAt(s, id, r) + s.released[r] == s.delivered[r] + FatesAt(t, id, r) + t.released[r]
    ensures ResultsConserved(t)
  {
    forall r ensures t.delivered[r] ==
      t.released[r] + Bag(t.ops, InCallback)[r] + Bag(t.ops, Reachable)[r] + Bag(t.ops, Lost)[r]
    {
      OneOpCounts(s.ops, id, t.ops[id], t.ops, r);
      assert t.delivered[r] + FatesAt(s, id, r) + s.released[r] == s.delivered[r] + FatesAt(t, id, r) + t.released[r];
    }
  }

  // A result that is delivered is in its callback, then offered to the task, then released, one at a time.

  lemma FateOfDelivered(op: Op, result: NativeResult, r: NativeRef)
    requires Settling(op) && op.stage.Due?
    ensures Fates(op, r) == 0 && Fates(op.(stage := Called, result := result), r) == Refs(result.ref)[r]
  {
  }

  lemma FateOfOffered(op: Op, after: Op, r: NativeRef)
    requires Settling(op) && op.stage.Unregistered? && after.stage.Settled?
    requires after.result == op.result && after.refDisposed == op.refDisposed
    requires after.attempts == op.attempts + [ByCallback]
    requires after.task == if op.task == Cancelled then Cancelled
                           else if op.isGet || op.result.ok then Completed else Faulted
    ensures Fates(after, r) == Fates(op, r)
  {
    assert op.task.Waiting? || op.task.Cancelled?;
  }

  lemma FateOfDisposed(op: Op, r: NativeRef)
    requires Settling(op) && op.task == Completed && !op.refDisposed
    ensures Fates(op, r) == Refs(op.result.ref)[r] && Fates(op.(refDisposed := true), r) == 0
  {
    assert ByCallback in op.attempts;
  }

  lemma CallbackConserves(s: State, id: CallId, result: NativeResult)
    requires AllSettling(s) && ResultsConserved(s) && Enabled(s, Callback(id, result))
    ensures ResultsConserved(DoCallback(s, id, result))
  {
    var t := DoCallback(s, id, result);
    forall r ensures
      t.delivered[r] + FatesAt(s, id, r) + s.released[r] == s.delivered[r] + FatesAt(t, id, r) + t.released[r]
    {
      FateOfDelivered(s.ops[id], result, r);
    }
    OpConserves(s, t, id);
  }

  lemma SettleConserves(s: State, id: CallId)
    requires AllSettling(s) && ResultsConserved(s) && Enabled(s, Settle(id))
    ensures ResultsConserved(DoSettle(s, id))
  {
    var t := DoSettle(s, id);
    forall r ensures FatesAt(s, id, r) == FatesAt(t, id, r) {
      FateOfOffered(s.ops[id], t.ops[id], r);
    }
    OpConserves(s, t, id);
  }

  lemma DisposeRefConserves(s: State, id: CallId)
    requires AllSettling(s) && ResultsConserved(s) && Enabled(s, DisposeRef(id))
    ensures ResultsConserved(DoDisposeRef(s, id))
  {
    if !s.ops[id].refDisposed {
      var t := DoDisposeRef(s, id);
      forall r ensures
        t.delivered[r] + FatesAt(s, id, r) + s.released[r] == s.delivered[r] + FatesAt(t, id, r) + t.released[r]
      {
        FateOfDisposed(s.ops[id], r);
      }
      OpConserves(s, t, id);
    }
  }

  /** The other steps of a call keep the fate of its result, if it has one. */
  predicate SameFate(a: Op, b: Op) {
    && a.result == b.result && a.refDisposed == b.refDisposed
    && (CallbackSettled(a.stage) <==> CallbackSettled(b.stage))
    && (CallbackSettled(a.stage) ==> a.task == b.task && a.attempts == b.attempts)
  }

  lemma SameFateConserves(s: State, t: State, id: CallId)
    requires ResultsConserved(s) && id in t.ops && t.ops == s.ops[id := t.ops[id]]
    requires t.delivered == s.delivered && t.released == s.released
    requires if id in s.ops then SameFate(s.ops[id], t.ops[id]) else t.ops[id].result.ref.None?
    ensures ResultsConserved(t)
  {
    forall r ensures FatesAt(s, id, r) == FatesAt(t, id, r) {
    }
    OpConserves(s, t, id);
  }

  lemma EarlyConserves(s: State, step: Step)
    requires ResultsConserved(s) && Enabled(s, step) && Early(step)
    ensures ResultsConserved(Apply(s, step))
  {
    EarlyFate(s, step, Apply(s, step));
    SameFateConserves(s, Apply(s, step), step.id);
  }

  lemma EarlyFate(s: State, step: Step, t: State)
    requires Enabled(s, step) && Early(step) && t == Apply(s, step)
    ensures step.id in t.ops && t.ops == s.ops[step.id := t.ops[step.id]]
    ensures t.delivered == s.delivered && t.released == s.released
    ensures if step.id in s.ops then SameFate(s.ops[step.id], t.ops[step.id]) else t.ops[step.id].result.ref.None?
  {
  }

  lemma LateConserves(s: State, step: Step)
    requires ResultsConserved(s) && Enabled(s, step)
    requires step.Unregister? || step.Untrack? || step.Free? || step.Cancel?
    ensures ResultsConserved(Apply(s, step))
  {
    SameFateConserves(s, Apply(s, step), step.id);
  }

  lemma StepConserves(s: State, step: Step)
    requires AllSettling(s) && ResultsConserved(s) && Enabled(s, step)
    ensures ResultsConserved(Apply(s, step))
  {
    if Disposes(step) {
      DisposeConserves(s, step);
    } else if Early(step) {
      EarlyConserves(s, step);
    } else if step.Callback? {
      CallbackConserves(s, step.id, step.result);
    } else if step.Settle? {
      SettleConserves(s, step.id);
    } else if step.DisposeRef? {
      DisposeRefConserves(s, step.id);
    } else {
      LateConserves(s, step);
    }
  }

  /** Disposing the client touches no result. */
  lemma DisposeConserves(s: State, step: Step)
    requires ResultsConserved(s) && Enabled(s, step) && Disposes(step)
    ensures ResultsConserved(Apply(s, step))
  {
    assert Apply(s, step).ops == s.ops;
  }

  lemma {:induction false} ResultConservation(careful: bool, s: State, steps: seq<Step>)
    requires Init(s) && Run(careful, s, steps)
    ensures AllSettling(After(s, steps)) && ResultsConserved(After(s, steps))
    decreases |steps|
  {
    if steps != [] {
      var n := |steps| - 1;
      ResultConservation(careful, s, steps[..n]);
      StepKeepsSettling(After(s, steps[..n]), steps[n]);
      StepConserves(After(s, steps[..n]), steps[n]);
    }
  }

  /** Every completed get has had its reference disposed by its caller. */
  ghost predicate AllDisposed(s: State) {
    forall id :: id in s.ops && s.ops[id].isGet && s.ops[id].task == Completed ==> s.ops[id].refDisposed
  }

  lemma {:induction false} NoRefs(ops: map<CallId, Op>, f: Op -> multiset<NativeRef>, r: NativeRef)
    requires forall id :: id in ops ==> f(ops[id])[r] == 0
    ensures Bag(ops, f)[r] == 0
    decreases |ops|
  {
    if ops != map[] {
      var id :| id in ops;
      BagRemove(ops, f, id);
      assert |ops - {id}| < |ops| by { assert (ops - {id}).Keys == ops.Keys - {id}; }
      NoRefs(ops - {id}, f, r);
    }
  }

  /** A get that succeeded, but whose token fired before its callback disposed the registration. */
  predicate LostToToken(op: Op) {
    op.isGet && op.result.ok && op.cancelFired
  }

  /**
   Once every callback has run and every reachable result is disposed, what has not been released is exactly what
   a cancellation beat to its task; all is released if and only if no get that succeeded had its token fire
   before its callback disposed the registration.
   */
  lemma {:induction false} LeaksAreLostResults(careful: bool, s: State, steps: seq<Step>)
    requires Init(s) && Run(careful, s, steps) && Quiet(After(s, steps)) && AllDisposed(After(s, steps))
    ensures
      var t := After(s, steps);
      && (forall r :: t.delivered[r] == t.released[r] + Bag(t.ops, Lost)[r])
      && (t.delivered == t.released <==> forall id :: id in t.ops ==> !LostToToken(t.ops[id]))
  {
    ResultConservation(careful, s, steps);
    UnreleasedAreLost(After(s, steps));
  }

  lemma UnreleasedAreLost(t: State)
    requires AllSettling(t) && ResultsConserved(t) && Quiet(t) && AllDisposed(t)
    ensures forall r :: t.delivered[r] == t.released[r] + Bag(t.ops, Lost)[r]
    ensures t.delivered == t.released <==> forall id :: id in t.ops ==> !LostToToken(t.ops[id])
  {
    SettledAtTheEnd(t);
    forall id | id in t.ops && LostToToken(t.ops[id]) ensures t.delivered != t.released {
      BagRemove(t.ops, Lost, id);
      assert Lost(t.ops[id])[t.ops[id].result.ref.value] == 1;
    }
    if forall id :: id in t.ops ==> !LostToToken(t.ops[id]) {
      forall r ensures t.delivered[r] == t.released[r] {
        NoRefs(t.ops, Lost, r);
      }
    }
  }

  lemma SettledAtTheEnd(t: State)
    requires AllSettling(t) && ResultsConserved(t) && Quiet(t) && AllDisposed(t)
    ensures forall r :: t.delivered[r] == t.released[r] + Bag(t.ops, Lost)[r]
    ensures forall id :: id in t.ops ==>
      Lost(t.ops[id]) == (if LostToToken(t.ops[id]) then Refs(t.ops[id].result.ref) else multiset{})
  {
    forall id | id in t.ops ensures Settling(t.ops[id]) && t.ops[id].attempts != [] {
      assert ByCallback in t.ops[id].attempts;
    }
    forall r ensures Bag(t.ops, InCallback)[r] == 0 && Bag(t.ops, Reachable)[r] == 0 {
      NoRefs(t.ops, InCallback, r);
      NoRefs(t.ops, Reachable, r);
    }
  }

  /** The leak happens: one get, cancelled while its native call runs, which then succeeds. */
  lemma {:induction false} CancelledGetLeaks(s: State, id: CallId, gc: GcHandle, r: NativeRef)
    requires Init(s)
    ensures Run(true, s, StepsOf(id, gc, r, true, 11))
    ensures
      var t := After(s, StepsOf(id, gc, r, true, 11));
      Quiet(t) && AllDisposed(t) && t.delivered == multiset{r} && t.released == multiset{}
  {
    OneCallRuns(s, id, gc, r, true, 11);
  }
}
