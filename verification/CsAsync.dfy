/**
 The asynchronous C# client (bindings/csharp/KvStore/KvStoreAsyncClient.cs): calls of many threads, their
 entries in the table of pending operations, their GC handles, cancellation, the native callbacks, and Dispose,
 which takes no lock that a call takes.
 */
module CsAsync {
  import opened Common

  type CallId = nat
  type GcHandle = nat

  /** A leaked native reference; each successful result carries its own. */
  type NativeRef = nat

  /**
   How far a call has come. Created: past ThrowIfDisposed, task source made, cancellation registered. Reading: it
   has read the native pointer to pass, and the native function is not yet done with the client. Due: it is, and
   the callback is to come. Called to Settled: inside the callback, on whatever thread runs it.
   */
  datatype Stage =
    | Created | Numbered | Allocated | Tracked | Reading | Due | Called | Unregistered | Settled | Untracked | Freed

  datatype TaskState = Waiting | Cancelled | Completed | Faulted

  datatype Attempt = ByCancel | ByCallback

  /** What the callback brings: `ok`, and for a successful get the reference to release. */
  datatype NativeResult = NativeResult(ok: bool, ref: Option<NativeRef>)

  /** `passed` says that the native pointer read was not null. `attempts` records who has tried to settle the task. */
  datatype Op = Op(isGet: bool, stage: Stage, opId: nat, gc: GcHandle, passed: bool, result: NativeResult,
                   task: TaskState, cancelFired: bool, refDisposed: bool, attempts: seq<Attempt>)

  /**
   How far Dispose has come, under its lock. Flagged: the flag is set. Freeing: in the loop over the table, which
   meets every entry that stays in it throughout, and perhaps some that come later; `picked` is the handle of the
   entry it has read and is about to free. Cleared: the table is cleared. Destroyed: the native client is gone and
   the pointer to it still there. Closed: the pointer is nulled.
   */
  datatype Closing =
    | Open
    | Flagged
    | Freeing(start: set<nat>, visited: set<nat>, picked: Option<GcHandle>)
    | Cleared
    | Destroyed
    | Closed

  /**
   `fault` records a callback that met a freed handle or another call's context, or a handle freed twice;
   `dangling` a native function that uses a client that is gone.
   */
  datatype State = State(ops: map<CallId, Op>, counter: nat, handles: map<GcHandle, CallId>,
                         pending: map<nat, GcHandle>, closing: Closing,
                         delivered: multiset<NativeRef>, released: multiset<NativeRef>, fault: bool, dangling: bool)

  datatype Step =
    | Create(id: CallId, isGet: bool)
    | Number(id: CallId)
    | Alloc(id: CallId, gc: GcHandle)
    | Track(id: CallId)
    | Read(id: CallId)
    | CallNative(id: CallId)
    | Callback(id: CallId, result: NativeResult)
    | Unregister(id: CallId)
    | Settle(id: CallId)
    | Untrack(id: CallId)
    | Free(id: CallId)
    | Cancel(id: CallId)
    | DisposeRef(id: CallId)
    | BeginDispose
    | BeginLoop
    | Pick(entry: nat)
    | FreePicked
    | EndLoop
    | DestroyNative
    | NullPointer

  predicate Disposes(step: Step) {
    || step.BeginDispose? || step.BeginLoop? || step.Pick? || step.FreePicked? || step.EndLoop?
    || step.DestroyNative? || step.NullPointer?
  }

  predicate HasNumber(stage: Stage) {
    !stage.Created?
  }

  /** Between GCHandle.Alloc and Free. */
  predicate HoldsHandle(stage: Stage) {
    !stage.Created? && !stage.Numbered? && !stage.Freed?
  }

  /** Between the insertion into the table and TryRemove. */
  predicate HoldsEntry(stage: Stage) {
    HoldsHandle(stage) && !stage.Allocated? && !stage.Untracked?
  }

  /** Between ThrowIfDisposed and TryRemove. */
  predicate Exposed(stage: Stage) {
    !stage.Untracked? && !stage.Freed?
  }

  /** Between ThrowIfDisposed and the use of the native pointer. */
  predicate BeforeNative(stage: Stage) {
    stage.Created? || stage.Numbered? || stage.Allocated? || stage.Tracked? || stage.Reading?
  }

  /** Until the callback disposes the registration. */
  predicate Cancellable(stage: Stage) {
    BeforeNative(stage) || stage.Due? || stage.Called?
  }

  predicate At(s: State, id: CallId, stage: Stage) {
    id in s.ops && s.ops[id].stage == stage
  }

  /** A get brings a reference exactly when it succeeds; a set never does. A null client is InvalidInput. */
  predicate PossibleResult(op: Op, result: NativeResult) {
    (result.ref.Some? <==> op.isGet && result.ok) && (result.ok ==> op.passed)
  }

  predicate NativeGone(s: State) {
    s.closing.Destroyed? || s.closing.Closed?
  }

  /** No call stands between ThrowIfDisposed and TryRemove. */
  predicate NoneExposed(s: State) {
    forall id :: id in s.ops ==> !Exposed(s.ops[id].stage)
  }

  /** Every call has run its callback to the end. */
  predicate Quiet(s: State) {
    forall id :: id in s.ops ==> s.ops[id].stage.Freed?
  }

  predicate Enabled(s: State, step: Step) {
    match step
    case Create(id, _) => id !in s.ops && s.closing.Open?
    case Number(id) => At(s, id, Created)
    case Alloc(id, gc) => At(s, id, Numbered) && gc !in s.handles
    case Track(id) => At(s, id, Allocated)
    case Read(id) => At(s, id, Tracked)
    case CallNative(id) => At(s, id, Reading)
    case Callback(id, result) => At(s, id, Due) && PossibleResult(s.ops[id], result)
    case Unregister(id) => At(s, id, Called)
    case Settle(id) => At(s, id, Unregistered)
    case Untrack(id) => At(s, id, Settled)
    case Free(id) => At(s, id, Untracked)
    case Cancel(id) => id in s.ops && Cancellable(s.ops[id].stage) && !s.ops[id].cancelFired
    case DisposeRef(id) => id in s.ops && s.ops[id].isGet && s.ops[id].task == Completed
    case BeginDispose => s.closing.Open?
    case BeginLoop => s.closing.Flagged?
    case Pick(entry) => CanPick(s) && entry in s.pending && entry !in s.closing.visited
    case FreePicked => s.closing.Freeing? && s.closing.picked.Some?
    case EndLoop => CanPick(s) && forall n :: n in s.pending && n in s.closing.start ==> n in s.closing.visited
    case DestroyNative => s.closing.Cleared?
    case NullPointer => s.closing.Destroyed?
  }

  predicate CanPick(s: State) {
    s.closing.Freeing? && s.closing.picked.None?
  }

  function Apply(s: State, step: Step): State
    requires Enabled(s, step)
  {
    match step
    case Create(id, isGet) =>
      s.(ops := s.ops[id := Op(isGet, Created, 0, 0, false, NativeResult(false, None), Waiting, false, false, [])])
    case Number(id) =>
      s.(ops := s.ops[id := s.ops[id].(stage := Numbered, opId := s.counter + 1)], counter := s.counter + 1)
    case Alloc(id, gc) =>
      s.(ops := s.ops[id := s.ops[id].(stage := Allocated, gc := gc)], handles := s.handles[gc := id])
    case Track(id) =>
      s.(ops := s.ops[id := s.ops[id].(stage := Tracked)], pending := s.pending[s.ops[id].opId := s.ops[id].gc])
    case Read(id) => s.(ops := s.ops[id := s.ops[id].(stage := Reading, passed := !s.closing.Closed?)])
    case CallNative(id) =>
      s.(ops := s.ops[id := s.ops[id].(stage := Due)],
         dangling := s.dangling || (s.ops[id].passed && NativeGone(s)))
    case Callback(id, result) => DoCallback(s, id, result)
    case Unregister(id) => s.(ops := s.ops[id := s.ops[id].(stage := Unregistered)])
    case Settle(id) => DoSettle(s, id)
    case Untrack(id) =>
      s.(ops := s.ops[id := s.ops[id].(stage := Untracked)], pending := s.pending - {s.ops[id].opId})
    case Free(id) =>
      s.(ops := s.ops[id := s.ops[id].(stage := Freed)], handles := s.handles - {s.ops[id].gc},
         fault := s.fault || s.ops[id].gc !in s.handles)
    case Cancel(id) => DoCancel(s, id)
    case DisposeRef(id) => DoDisposeRef(s, id)
    case BeginDispose => s.(closing := Flagged)
    case BeginLoop => s.(closing := Freeing(s.pending.Keys, {}, None))
    case Pick(entry) =>
      s.(closing := s.closing.(visited := s.closing.visited + {entry}, picked := Some(s.pending[entry])))
    case FreePicked => DoFreePicked(s)
    case EndLoop => s.(closing := Cleared, pending := map[])
    case DestroyNative => s.(closing := Destroyed)
    case NullPointer => s.(closing := Closed)
  }

  /** IsAllocated looks at the table's own copy of the handle, which nobody clears, so the loop always frees. */
  function DoFreePicked(s: State): State
    requires s.closing.Freeing? && s.closing.picked.Some?
  {
    s.(closing := s.closing.(picked := None), handles := s.handles - {s.closing.picked.value},
       fault := s.fault || s.closing.picked.value !in s.handles)
  }

  /** user_data leads back to the context of this very call, or something is badly wrong. */
  function DoCallback(s: State, id: CallId, result: NativeResult): State
    requires id in s.ops
  {
    s.(ops := s.ops[id := s.ops[id].(stage := Called, result := result)],
       delivered := s.delivered + Refs(result.ref),
       fault := s.fault || s.ops[id].gc !in s.handles || s.handles[s.ops[id].gc] != id)
  }

  /** TrySetResult or TrySetException: does nothing to a task that is settled already. */
  function DoSettle(s: State, id: CallId): State
    requires id in s.ops
  {
    var op := s.ops[id];
    var outcome := if op.isGet || op.result.ok then Completed else Faulted;
    s.(ops := s.ops[id := op.(stage := Settled, attempts := op.attempts + [ByCallback],
                              task := if op.task == Waiting then outcome else op.task)])
  }

  /** TrySetCanceled, from the registered token, on any thread. */
  function DoCancel(s: State, id: CallId): State
    requires id in s.ops
  {
    var op := s.ops[id];
    s.(ops := s.ops[id := op.(cancelFired := true, attempts := op.attempts + [ByCancel],
                              task := if op.task == Waiting then Cancelled else op.task)])
  }

  function Refs(ref: Option<NativeRef>): multiset<NativeRef> {
    if ref.Some? then multiset{ref.value} else multiset{}
  }

  /** AsyncValueRef.Dispose: releases the first time only. */
  function DoDisposeRef(s: State, id: CallId): State
    requires id in s.ops
  {
    var op := s.ops[id];
    if op.refDisposed then s
    else s.(ops := s.ops[id := op.(refDisposed := true)], released := s.released + Refs(op.result.ref))
  }

  ghost predicate Init(s: State) {
    s == State(map[], 0, map[], map[], Open, multiset{}, multiset{}, false, false)
  }

  /** A careful caller does not begin to dispose while a call stands between ThrowIfDisposed and TryRemove. */
  ghost predicate Run(careful: bool, s: State, steps: seq<Step>)
    decreases |steps|
  {
    steps == [] ||
    var n := |steps| - 1;
    && Run(careful, s, steps[..n]) && Enabled(After(s, steps[..n]), steps[n])
    && (careful && steps[n].BeginDispose? ==> NoneExposed(After(s, steps[..n])))
  }

  ghost function After(s: State, steps: seq<Step>): State
    decreases |steps|
  {
    if steps == [] then s
    else
      var n := |steps| - 1;
      var t := After(s, steps[..n]);
      if Enabled(t, steps[n]) then Apply(t, steps[n]) else t
  }

  lemma Extend(careful: bool, s: State, steps: seq<Step>, step: Step) returns (more: seq<Step>)
    requires Run(careful, s, steps) && Enabled(After(s, steps), step)
    requires careful && step.BeginDispose? ==> NoneExposed(After(s, steps))
    ensures more == steps + [step] && Run(careful, s, more) && After(s, more) == Apply(After(s, steps), step)
  {
    more := steps + [step];
    assert more[..|more| - 1] == steps;
  }

  // ------------------------------------------------------------------ the table of pending operations

  ghost predicate OwnNumber(s: State) {
    && (forall i :: i in s.ops && HasNumber(s.ops[i].stage) ==> s.ops[i].opId <= s.counter)
    && (forall i, j :: i in s.ops && j in s.ops && i != j && HasNumber(s.ops[i].stage) && HasNumber(s.ops[j].stage)
          ==> s.ops[i].opId != s.ops[j].opId)
  }

  /** From allocation to its one Free, each call's handle is allocated and leads to its own context. */
  ghost predicate OwnHandle(s: State) {
    && (forall i :: i in s.ops && HoldsHandle(s.ops[i].stage) ==>
          s.ops[i].gc in s.handles && s.handles[s.ops[i].gc] == i)
    && (forall g :: g in s.handles ==>
          s.handles[g] in s.ops && s.ops[s.handles[g]].gc == g && HoldsHandle(s.ops[s.handles[g]].stage))
  }

  /** From before the native call until the callback removes it, each call's number leads to its own handle. */
  ghost predicate OwnEntry(s: State) {
    && (forall i :: i in s.ops && HoldsEntry(s.ops[i].stage) ==>
          s.ops[i].opId in s.pending && s.pending[s.ops[i].opId] == s.ops[i].gc)
    && (forall n :: n in s.pending ==>
          s.pending[n] in s.handles && s.handles[s.pending[n]] in s.ops &&
          s.ops[s.handles[s.pending[n]]].opId == n && HoldsEntry(s.ops[s.handles[s.pending[n]]].stage))
  }

  ghost predicate Tabled(s: State) {
    !s.fault && OwnNumber(s) && OwnHandle(s) && OwnEntry(s)
  }

  // A call that stays on the same side of a threshold does not disturb what depends on it.

  lemma NumberUndisturbed(s: State, t: State, id: CallId)
    requires OwnNumber(s) && id in s.ops && id in t.ops && t.ops == s.ops[id := t.ops[id]] && t.counter == s.counter
    requires t.ops[id].opId == s.ops[id].opId && (HasNumber(t.ops[id].stage) <==> HasNumber(s.ops[id].stage))
    ensures OwnNumber(t)
  {
  }

  lemma HandleUndisturbed(s: State, t: State, id: CallId)
    requires OwnHandle(s) && id in s.ops && id in t.ops && t.ops == s.ops[id := t.ops[id]] && t.handles == s.handles
    requires HoldsHandle(t.ops[id].stage) <==> HoldsHandle(s.ops[id].stage)
    requires HoldsHandle(t.ops[id].stage) ==> t.ops[id].gc == s.ops[id].gc
    ensures OwnHandle(t)
  {
  }

  lemma EntryUndisturbed(s: State, t: State, id: CallId)
    requires OwnEntry(s) && id in s.ops && id in t.ops && t.ops == s.ops[id := t.ops[id]]
    requires t.handles == s.handles && t.pending == s.pending
    requires HoldsEntry(t.ops[id].stage) <==> HoldsEntry(s.ops[id].stage)
    requires HoldsEntry(t.ops[id].stage) ==> t.ops[id].gc == s.ops[id].gc && t.ops[id].opId == s.ops[id].opId
    ensures OwnEntry(t)
  {
  }

  lemma CreateKeepsTabled(s: State, id: CallId, isGet: bool)
    requires Tabled(s) && Enabled(s, Create(id, isGet))
    ensures Tabled(Apply(s, Create(id, isGet)))
  {
    var t := Apply(s, Create(id, isGet));
    CreateKeepsNumber(s, t, id);
    CreateKeepsHandle(s, t, id);
    CreateKeepsEntry(s, t, id);
  }

  lemma CreateKeepsNumber(s: State, t: State, id: CallId)
    requires OwnNumber(s) && At(t, id, Created) && t.ops == s.ops[id := t.ops[id]] && t.counter == s.counter
    ensures OwnNumber(t)
  {
  }

  lemma CreateKeepsHandle(s: State, t: State, id: CallId)
    requires OwnHandle(s) && id !in s.ops && At(t, id, Created) && t.ops == s.ops[id := t.ops[id]]
    requires t.handles == s.handles
    ensures OwnHandle(t)
  {
  }

  lemma CreateKeepsEntry(s: State, t: State, id: CallId)
    requires OwnEntry(s) && id !in s.ops && At(t, id, Created) && t.ops == s.ops[id := t.ops[id]]
    requires t.handles == s.handles && t.pending == s.pending
    ensures OwnEntry(t)
  {
  }

  lemma NumberKeepsTabled(s: State, id: CallId)
    requires Tabled(s) && At(s, id, Created)
    ensures Tabled(Apply(s, Number(id)))
  {
    HandleUndisturbed(s, Apply(s, Number(id)), id);
    EntryUndisturbed(s, Apply(s, Number(id)), id);
  }

  lemma AllocKeepsEntry(s: State, id: CallId, gc: GcHandle)
    requires OwnHandle(s) && OwnEntry(s) && At(s, id, Numbered) && gc !in s.handles
    ensures OwnEntry(Apply(s, Alloc(id, gc)))
  {
  }

  lemma AllocKeepsHandle(s: State, id: CallId, gc: GcHandle)
    requires OwnHandle(s) && At(s, id, Numbered) && gc !in s.handles
    ensures OwnHandle(Apply(s, Alloc(id, gc)))
  {
  }

  lemma TrackKeepsEntry(s: State, id: CallId)
    requires OwnNumber(s) && OwnHandle(s) && OwnEntry(s) && At(s, id, Allocated)
    ensures OwnEntry(Apply(s, Track(id)))
  {
  }

  lemma UntrackKeepsEntry(s: State, id: CallId)
    requires OwnNumber(s) && OwnHandle(s) && OwnEntry(s) && At(s, id, Settled)
    ensures OwnEntry(Apply(s, Untrack(id)))
  {
  }

  lemma FreeKeepsHandle(s: State, id: CallId)
    requires OwnHandle(s) && At(s, id, Untracked)
    ensures OwnHandle(Apply(s, Free(id))) && s.ops[id].gc in s.handles
  {
  }

  lemma FreeKeepsEntry(s: State, id: CallId)
    requires OwnHandle(s) && OwnEntry(s) && At(s, id, Untracked)
    ensures OwnEntry(Apply(s, Free(id)))
  {
  }

  lemma AllocKeepsTabled(s: State, id: CallId, gc: GcHandle)
    requires Tabled(s) && Enabled(s, Alloc(id, gc))
    ensures Tabled(Apply(s, Alloc(id, gc)))
  {
    NumberUndisturbed(s, Apply(s, Alloc(id, gc)), id);
    AllocKeepsHandle(s, id, gc);
    AllocKeepsEntry(s, id, gc);
  }

  lemma TrackKeepsTabled(s: State, id: CallId)
    requires Tabled(s) && Enabled(s, Track(id))
    ensures Tabled(Apply(s, Track(id)))
  {
    NumberUndisturbed(s, Apply(s, Track(id)), id);
    HandleUndisturbed(s, Apply(s, Track(id)), id);
    TrackKeepsEntry(s, id);
  }

  lemma UntrackKeepsTabled(s: State, id: CallId)
    requires Tabled(s) && Enabled(s, Untrack(id))
    ensures Tabled(Apply(s, Untrack(id)))
  {
    NumberUndisturbed(s, Apply(s, Untrack(id)), id);
    HandleUndisturbed(s, Apply(s, Untrack(id)), id);
    UntrackKeepsEntry(s, id);
  }

  lemma FreeKeepsTabled(s: State, id: CallId)
    requires Tabled(s) && Enabled(s, Free(id))
    ensures Tabled(Apply(s, Free(id)))
  {
    NumberUndisturbed(s, Apply(s, Free(id)), id);
    FreeKeepsHandle(s, id);
    FreeKeepsEntry(s, id);
  }

  /** The steps that leave the table alone: the callback meets its own context. */
  lemma AdvanceKeepsTabled(s: State, step: Step)
    requires Tabled(s) && Enabled(s, step)
    requires step.Read? || step.CallNative? || step.Callback? || step.Unregister?
    ensures Tabled(Apply(s, step))
  {
    if step.Callback? {
      CallbackKeepsTabled(s, step.id, step.result);
    } else if step.Unregister? {
      UnregisterKeepsTabled(s, step.id);
    } else {
      NativeKeepsTabled(s, step);
    }
  }

  lemma NativeKeepsTabled(s: State, step: Step)
    requires Tabled(s) && Enabled(s, step) && (step.Read? || step.CallNative?)
    ensures Tabled(Apply(s, step))
  {
    Undisturbed(s, Apply(s, step), step.id);
  }

  lemma UnregisterKeepsTabled(s: State, id: CallId)
    requires Tabled(s) && At(s, id, Called)
    ensures Tabled(Apply(s, Unregister(id)))
  {
    Undisturbed(s, Apply(s, Unregister(id)), id);
  }

  lemma CallbackKeepsTabled(s: State, id: CallId, result: NativeResult)
    requires Tabled(s) && At(s, id, Due)
    ensures Tabled(DoCallback(s, id, result))
  {
    Undisturbed(s, DoCallback(s, id, result), id);
  }

  lemma SettlingKeepsTabled(s: State, step: Step)
    requires Tabled(s) && Enabled(s, step) && (step.Settle? || step.Cancel? || step.DisposeRef?)
    ensures Tabled(Apply(s, step))
  {
    var t := Apply(s, step);
    if t != s {
      Undisturbed(s, t, step.id);
    }
  }

  lemma Undisturbed(s: State, t: State, id: CallId)
    requires Tabled(s) && !t.fault && id in s.ops && id in t.ops && t.ops == s.ops[id := t.ops[id]]
    requires t.counter == s.counter && t.handles == s.handles && t.pending == s.pending
    requires t.ops[id].opId == s.ops[id].opId && t.ops[id].gc == s.ops[id].gc
    requires HasNumber(t.ops[id].stage) <==> HasNumber(s.ops[id].stage)
    requires HoldsHandle(t.ops[id].stage) <==> HoldsHandle(s.ops[id].stage)
    requires HoldsEntry(t.ops[id].stage) <==> HoldsEntry(s.ops[id].stage)
    ensures Tabled(t)
  {
    NumberUndisturbed(s, t, id);
    HandleUndisturbed(s, t, id);
    EntryUndisturbed(s, t, id);
  }

  // ------------------------------------------------------------------ whole runs

  /** Every step of a call, whatever Dispose is doing, given that it has done no harm so far. */
  lemma CallKeepsTabled(s: State, step: Step)
    requires Tabled(s) && Enabled(s, step) && !Disposes(step)
    ensures Tabled(Apply(s, step))
  {
    if step.Create? {
      CreateKeepsTabled(s, step.id, step.isGet);
    } else if step.Number? {
      NumberKeepsTabled(s, step.id);
    } else if step.Alloc? {
      AllocKeepsTabled(s, step.id, step.gc);
    } else if step.Track? {
      TrackKeepsTabled(s, step.id);
    } else if step.Untrack? {
      UntrackKeepsTabled(s, step.id);
    } else if step.Free? {
      FreeKeepsTabled(s, step.id);
    } else if step.Read? || step.CallNative? || step.Callback? || step.Unregister? {
      AdvanceKeepsTabled(s, step);
    } else {
      SettlingKeepsTabled(s, step);
    }
  }

  /** Once Dispose has begun it finds nothing to free, and no call will use the native client. */
  ghost predicate Calm(s: State) {
    && !s.dangling
    && (!s.closing.Open? ==> NoneExposed(s) && (s.closing.Freeing? ==> s.closing.picked.None?))
  }

  ghost predicate Sound(s: State) {
    Tabled(s) && Calm(s)
  }

  lemma NothingTabled(s: State)
    requires OwnEntry(s) && NoneExposed(s)
    ensures s.pending == map[]
  {
    assert forall n :: n !in s.pending;
  }

  lemma CallKeepsCalm(s: State, step: Step)
    requires Calm(s) && Enabled(s, step) && !Disposes(step)
    ensures Calm(Apply(s, step))
  {
  }

  lemma DisposeKeepsSound(s: State, step: Step)
    requires Sound(s) && Enabled(s, step) && Disposes(step) && (step.BeginDispose? ==> NoneExposed(s))
    ensures Sound(Apply(s, step))
  {
    NothingTabled(s);
    var t := Apply(s, step);
    assert t.ops == s.ops && t.handles == s.handles && t.pending == s.pending && t.counter == s.counter;
  }

  lemma StepKeepsSound(s: State, step: Step)
    requires Sound(s) && Enabled(s, step) && (step.BeginDispose? ==> NoneExposed(s))
    ensures Sound(Apply(s, step))
  {
    if Disposes(step) {
      DisposeKeepsSound(s, step);
    } else {
      CallKeepsTabled(s, step);
      CallKeepsCalm(s, step);
    }
  }

  lemma NeverReopens(s: State, step: Step)
    requires Enabled(s, step)
    ensures Apply(s, step).closing.Open? ==> s.closing.Open?
    ensures step.BeginDispose? ==> !Apply(s, step).closing.Open?
  {
  }

  /**
   However threads, callbacks, cancellations and a careful Dispose interleave, each callback meets and frees exactly
   its own handle, and no native function is given a client that is gone; without that care, until Dispose begins.
   */
  lemma {:induction false} PendingTable(careful: bool, s: State, steps: seq<Step>)
    requires Init(s) && Run(careful, s, steps) && (careful || After(s, steps).closing.Open?)
    ensures Sound(After(s, steps))
    decreases |steps|
  {
    if steps != [] {
      var n := |steps| - 1;
      NeverReopens(After(s, steps[..n]), steps[n]);
      PendingTable(careful, s, steps[..n]);
      StepKeepsSound(After(s, steps[..n]), steps[n]);
    }
  }
}
