/**
 When disposing an asynchronous C# client is safe for its calls (Dispose in
 bindings/csharp/KvStore/KvStoreAsyncClient.cs), step by step and under any interleaving.
 */
module CsDispose {
  import opened Common
  import opened CsAsync
  import opened CsOneCall

  // ------------------------------------------------------------------ what a call does after it has lost its handle

  /** The handle of this call has been freed though the call is still to use it. */
  predicate Robbed(s: State, id: CallId) {
    WillUseHandle(s, id) && s.ops[id].gc !in s.handles
  }

  /** In the table, or removed from it and about to free its handle. */
  predicate WillUseHandle(s: State, id: CallId) {
    id in s.ops && HoldsHandle(s.ops[id].stage) && !s.ops[id].stage.Allocated?
  }

  /** The step that a call takes next of its own accord, if its native call fails. */
  function NextStep(id: CallId, stage: Stage): Step {
    match stage
    case Tracked => Read(id)
    case Reading => CallNative(id)
    case Due => Callback(id, NativeResult(false, None))
    case Called => Unregister(id)
    case Unregistered => Settle(id)
    case Settled => Untrack(id)
    case _ => Free(id)
  }

  function Remaining(stage: Stage): nat {
    match stage
    case Tracked => 7
    case Reading => 6
    case Due => 5
    case Called => 4
    case Unregistered => 3
    case Settled => 2
    case _ => 1
  }

  /** The call has moved on, and its handle is still gone. */
  ghost predicate StillRobbed(s: State, t: State, id: CallId)
    requires id in s.ops
  {
    Robbed(t, id) && Remaining(t.ops[id].stage) < Remaining(s.ops[id].stage)
  }

  lemma NextStays(s: State, id: CallId)
    requires Robbed(s, id) && !At(s, id, Untracked)
    ensures
      var next := NextStep(id, s.ops[id].stage);
      Enabled(s, next) && !next.BeginDispose? && StillRobbed(s, Apply(s, next), id)
  {
    match s.ops[id].stage
    case Tracked => TrackedStays(s, id);
    case Reading => ReadingStays(s, id);
    case Due => DueStays(s, id);
    case Called => CalledStays(s, id);
    case Unregistered => UnregisteredStays(s, id);
    case Settled => SettledStays(s, id);
  }

  lemma TrackedStays(s: State, id: CallId)
    requires Robbed(s, id) && At(s, id, Tracked)
    ensures Enabled(s, Read(id)) && StillRobbed(s, Apply(s, Read(id)), id)
  {
  }

  lemma ReadingStays(s: State, id: CallId)
    requires Robbed(s, id) && At(s, id, Reading)
    ensures Enabled(s, CallNative(id)) && StillRobbed(s, Apply(s, CallNative(id)), id)
  {
  }

  lemma DueStays(s: State, id: CallId)
    requires Robbed(s, id) && At(s, id, Due)
    ensures Enabled(s, Callback(id, NativeResult(false, None)))
    ensures StillRobbed(s, Apply(s, Callback(id, NativeResult(false, None))), id)
  {
  }

  lemma CalledStays(s: State, id: CallId)
    requires Robbed(s, id) && At(s, id, Called)
    ensures Enabled(s, Unregister(id)) && StillRobbed(s, Apply(s, Unregister(id)), id)
  {
  }

  lemma UnregisteredStays(s: State, id: CallId)
    requires Robbed(s, id) && At(s, id, Unregistered)
    ensures Enabled(s, Settle(id)) && StillRobbed(s, Apply(s, Settle(id)), id)
  {
  }

  lemma SettledStays(s: State, id: CallId)
    requires Robbed(s, id) && At(s, id, Settled)
    ensures Enabled(s, Untrack(id)) && StillRobbed(s, Apply(s, Untrack(id)), id)
  {
  }

  /** A call that has been robbed runs on into the freed handle. */
  lemma {:induction false} RobbedFaults(s: State, steps: seq<Step>, id: CallId) returns (more: seq<Step>)
    requires Run(false, s, steps) && Robbed(After(s, steps), id)
    ensures Run(false, s, more) && After(s, more).fault
    decreases Remaining(After(s, steps).ops[id].stage)
  {
    var t := After(s, steps);
    if At(t, id, Untracked) {
      more := Extend(false, s, steps, Free(id));
    } else {
      NextStays(t, id);
      var next := Extend(false, s, steps, NextStep(id, t.ops[id].stage));
      more := RobbedFaults(s, next, id);
    }
  }

  // ------------------------------------------------------------------ how a call comes to be robbed

  lemma {:induction false} NewHandle(handles: map<GcHandle, CallId>) returns (gc: GcHandle)
    ensures gc !in handles && forall g :: g in handles ==> g < gc
    decreases |handles|
  {
    if handles == map[] {
      gc := 0;
    } else {
      var g :| g in handles;
      assert |handles - {g}| < |handles| by { assert (handles - {g}).Keys == handles.Keys - {g}; }
      var above := NewHandle(handles - {g});
      gc := if g < above then above else g + 1;
      assert forall k :: k in handles ==> k == g || k in handles - {g};
    }
  }

  /** A run in which the table is sound, Dispose has set the flag and no more, and this call is exposed. */
  ghost predicate Caught(s: State, steps: seq<Step>, id: CallId) {
    && Run(false, s, steps) && Tabled(After(s, steps)) && After(s, steps).closing.Flagged?
    && !After(s, steps).dangling
    && id in After(s, steps).ops && Exposed(After(s, steps).ops[id].stage)
  }

  /** A call that is exposed goes on by one of its own steps. */
  lemma CaughtGoesOn(s: State, steps: seq<Step>, id: CallId, step: Step) returns (more: seq<Step>)
    requires Caught(s, steps, id) && Enabled(After(s, steps), step)
    requires step.Number? || step.Alloc? || step.Track? || step.Read?
    requires step.id == id
    ensures Caught(s, more, id) && After(s, more) == Apply(After(s, steps), step)
  {
    CallKeepsTabled(After(s, steps), step);
    more := Extend(false, s, steps, step);
  }

  /** A call that has passed ThrowIfDisposed inserts its entry whatever Dispose has done. */
  lemma ReachTable(s: State, steps: seq<Step>, id: CallId) returns (more: seq<Step>)
    requires Caught(s, steps, id)
    ensures Caught(s, more, id) && HoldsEntry(After(s, more).ops[id].stage)
    ensures BeforeNative(After(s, steps).ops[id].stage) && !At(After(s, steps), id, Reading) ==>
              At(After(s, more), id, Tracked)
    ensures !BeforeNative(After(s, steps).ops[id].stage) || At(After(s, steps), id, Reading) ==> more == steps
  {
    more := steps;
    if At(After(s, more), id, Created) {
      more := CaughtGoesOn(s, more, id, Number(id));
    }
    if At(After(s, more), id, Numbered) {
      var gc := NewHandle(After(s, more).handles);
      more := CaughtGoesOn(s, more, id, Alloc(id, gc));
    }
    if At(After(s, more), id, Allocated) {
      more := CaughtGoesOn(s, more, id, Track(id));
    }
  }

  lemma PickRobs(t: State, id: CallId)
    requires Tabled(t) && t.closing.Flagged? && id in t.ops && HoldsEntry(t.ops[id].stage)
    ensures
      var u := Apply(t, BeginLoop);
      && Enabled(u, Pick(t.ops[id].opId))
      && var v := Apply(u, Pick(t.ops[id].opId));
      && Enabled(v, FreePicked) && Robbed(DoFreePicked(v), id)
  {
  }

  /** The loop of Dispose meets the entry of an exposed call and frees its handle; its callback then meets that. */
  lemma {:induction false} CaughtFaults(s: State, steps: seq<Step>, id: CallId)
    returns (robbed: seq<Step>, more: seq<Step>)
    requires Caught(s, steps, id)
    ensures Run(false, s, robbed) && Robbed(After(s, robbed), id)
    ensures Run(false, s, more) && After(s, more).fault
  {
    robbed := ReachTable(s, steps, id);
    PickRobs(After(s, robbed), id);
    var entry := After(s, robbed).ops[id].opId;
    robbed := Extend(false, s, robbed, BeginLoop);
    robbed := Extend(false, s, robbed, Pick(entry));
    robbed := Extend(false, s, robbed, FreePicked);
    more := RobbedFaults(s, robbed, id);
  }

  // ------------------------------------------------------------------ Dispose, uninterrupted

  function FreeAll(handles: map<GcHandle, CallId>, pending: map<nat, GcHandle>): map<GcHandle, CallId> {
    handles - pending.Values
  }

  /** All that Dispose does, if nothing comes between. */
  function DoDisposeClient(s: State): State {
    s.(closing := Closed, handles := FreeAll(s.handles, s.pending), pending := map[])
  }

  function FreedBy(pending: map<nat, GcHandle>, visited: set<nat>): set<GcHandle> {
    set n | n in visited && n in pending :: pending[n]
  }

  /** The loop over the table of t, when it has visited some of its entries. */
  function MidLoop(t: State, visited: set<nat>): State {
    t.(closing := Freeing(t.pending.Keys, visited, None), handles := t.handles - FreedBy(t.pending, visited))
  }

  lemma VisitOne(t: State, visited: set<nat>, n: nat)
    requires Tabled(t) && n in t.pending && n !in visited && visited <= t.pending.Keys
    ensures
      var m := MidLoop(t, visited);
      && Enabled(m, Pick(n))
      && var p := Apply(m, Pick(n));
      && Enabled(p, FreePicked) && Apply(p, FreePicked) == MidLoop(t, visited + {n})
  {
    assert t.pending[n] !in FreedBy(t.pending, visited);
    assert FreedBy(t.pending, visited + {n}) == FreedBy(t.pending, visited) + {t.pending[n]};
  }

  ghost predicate InLoop(s: State, steps: seq<Step>, t: State, visited: set<nat>) {
    Run(false, s, steps) && visited <= t.pending.Keys && After(s, steps) == MidLoop(t, visited)
  }

  lemma VisitNext(s: State, steps: seq<Step>, t: State, visited: set<nat>, n: nat) returns (more: seq<Step>)
    requires Tabled(t) && InLoop(s, steps, t, visited) && n in t.pending && n !in visited
    ensures InLoop(s, more, t, visited + {n})
  {
    VisitOne(t, visited, n);
    more := Extend(false, s, steps, Pick(n));
    more := Extend(false, s, more, FreePicked);
  }

  lemma {:induction false} VisitAll(s: State, steps: seq<Step>, t: State, visited: set<nat>) returns (more: seq<Step>)
    requires Tabled(t) && InLoop(s, steps, t, visited)
    ensures InLoop(s, more, t, t.pending.Keys)
    decreases |t.pending.Keys - visited|
  {
    if n :| n in t.pending && n !in visited {
      more := VisitNext(s, steps, t, visited, n);
      assert |t.pending.Keys - (visited + {n})| < |t.pending.Keys - visited| by {
        assert t.pending.Keys - (visited + {n}) == (t.pending.Keys - visited) - {n};
      }
      more := VisitAll(s, more, t, visited + {n});
    } else {
      assert visited == t.pending.Keys;
      more := steps;
    }
  }

  /** The loop can always be run to its end, and frees exactly the handles in the table. */
  lemma {:induction false} LoopEnds(s: State, steps: seq<Step>) returns (more: seq<Step>)
    requires Run(false, s, steps) && Tabled(After(s, steps)) && After(s, steps).closing.Flagged?
    ensures Run(false, s, more)
    ensures
      var t := After(s, steps);
      After(s, more) == t.(closing := Cleared, handles := FreeAll(t.handles, t.pending), pending := map[])
  {
    var t := After(s, steps);
    assert t.handles - FreedBy(t.pending, {}) == t.handles;
    more := Extend(false, s, steps, BeginLoop);
    more := VisitAll(s, more, t, {});
    assert FreedBy(t.pending, t.pending.Keys) == t.pending.Values;
    more := Extend(false, s, more, EndLoop);
  }

  /** With nothing in between, the steps of Dispose come to what it does in one piece. */
  lemma {:induction false} UninterruptedDispose(careful: bool, s: State, steps: seq<Step>) returns (more: seq<Step>)
    requires Init(s) && Run(careful, s, steps) && After(s, steps).closing.Open?
    ensures
      var t := After(s, steps);
      Run(false, t, more) && After(t, more) == DoDisposeClient(t)
  {
    PendingTable(careful, s, steps);
    var t := After(s, steps);
    more := Extend(false, t, [], BeginDispose);
    BeginKeepsTabled(t);
    more := LoopEnds(t, more);
    more := Extend(false, t, more, DestroyNative);
    more := Extend(false, t, more, NullPointer);
  }

  lemma BeginKeepsTabled(t: State)
    requires Tabled(t)
    ensures Tabled(t.(closing := Flagged))
  {
  }

  // ------------------------------------------------------------------ the native client

  /** A call that reads the pointer before Dispose nulls it may use it after the native client has gone. */
  lemma {:induction false} CaughtDangles(s: State, steps: seq<Step>, id: CallId) returns (more: seq<Step>)
    requires Caught(s, steps, id) && BeforeNative(After(s, steps).ops[id].stage)
    requires At(After(s, steps), id, Reading) ==> After(s, steps).ops[id].passed
    ensures Run(false, s, more) && After(s, more).dangling
  {
    more := ReachTable(s, steps, id);
    if At(After(s, more), id, Tracked) {
      more := CaughtGoesOn(s, more, id, Read(id));
    }
    more := LoopEnds(s, more);
    more := Extend(false, s, more, DestroyNative);
    more := Extend(false, s, more, CallNative(id));
  }

  /** No call is still to use the native pointer, and none will be: Dispose has begun. */
  ghost predicate PastNative(s: State) {
    && !s.closing.Open? && !s.dangling
    && forall id :: id in s.ops ==> !BeforeNative(s.ops[id].stage)
  }

  lemma StepKeepsPast(s: State, step: Step)
    requires PastNative(s) && Enabled(s, step)
    ensures PastNative(Apply(s, step))
  {
  }

  lemma {:induction false} PastForGood(u: State, more: seq<Step>)
    requires PastNative(u) && Run(false, u, more)
    ensures PastNative(After(u, more))
    decreases |more|
  {
    if more != [] {
      var n := |more| - 1;
      PastForGood(u, more[..n]);
      StepKeepsPast(After(u, more[..n]), more[n]);
    }
  }

  lemma {:induction false} SoundForGood(u: State, more: seq<Step>)
    requires Sound(u) && !u.closing.Open? && Run(false, u, more)
    ensures Sound(After(u, more)) && !After(u, more).closing.Open?
    decreases |more|
  {
    if more != [] {
      var n := |more| - 1;
      SoundForGood(u, more[..n]);
      NeverReopens(After(u, more[..n]), more[n]);
      StepKeepsSound(After(u, more[..n]), more[n]);
    }
  }

  /** A call that has read the pointer of an undisposed client has read one that is not null. */
  ghost predicate ReadWhileOpen(s: State) {
    s.closing.Open? ==> forall id :: At(s, id, Reading) ==> s.ops[id].passed
  }

  lemma StepReadsWhileOpen(s: State, step: Step)
    requires ReadWhileOpen(s) && Enabled(s, step)
    ensures ReadWhileOpen(Apply(s, step))
  {
    NeverReopens(s, step);
  }

  lemma {:induction false} AlwaysReadWhileOpen(careful: bool, s: State, steps: seq<Step>)
    requires Init(s) && Run(careful, s, steps)
    ensures ReadWhileOpen(After(s, steps))
    decreases |steps|
  {
    if steps != [] {
      var n := |steps| - 1;
      AlwaysReadWhileOpen(careful, s, steps[..n]);
      StepReadsWhileOpen(After(s, steps[..n]), steps[n]);
    }
  }

  // ------------------------------------------------------------------ when it is safe to begin

  /** In some continuation a handle is freed twice, or a callback meets one that is freed. */
  ghost predicate MayFault(u: State) {
    exists more :: Run(false, u, more) && After(u, more).fault
  }

  /** In some continuation a native function is given a client that is gone. */
  ghost predicate MayDangle(u: State) {
    exists more :: Run(false, u, more) && After(u, more).dangling
  }

  lemma BeginCatches(t: State, id: CallId) returns (steps: seq<Step>)
    requires Sound(t) && t.closing.Open? && id in t.ops && Exposed(t.ops[id].stage)
    ensures steps == [] && Caught(t.(closing := Flagged), steps, id)
  {
    BeginKeepsTabled(t);
    steps := [];
  }

  /**
   Beginning to dispose the client is safe for its handles if and only if no call stands between ThrowIfDisposed
   and TryRemove, and safe for the native client if and only if no call stands between ThrowIfDisposed and the use
   of the native pointer.
   */
  lemma {:induction false} DisposeIsSafe(careful: bool, s: State, steps: seq<Step>)
    requires Init(s) && Run(careful, s, steps) && After(s, steps).closing.Open?
    ensures
      var t := After(s, steps);
      var u := Apply(t, BeginDispose);
      && (MayFault(u) <==> exists id :: id in t.ops && Exposed(t.ops[id].stage))
      && (MayDangle(u) <==> exists id :: id in t.ops && BeforeNative(t.ops[id].stage))
  {
    PendingTable(careful, s, steps);
    AlwaysReadWhileOpen(careful, s, steps);
    HandlesAtRisk(After(s, steps));
    ClientAtRisk(After(s, steps));
  }

  lemma HandlesAtRisk(t: State)
    requires Sound(t) && t.closing.Open?
    ensures MayFault(t.(closing := Flagged)) <==> exists id :: id in t.ops && Exposed(t.ops[id].stage)
  {
    var u := t.(closing := Flagged);
    if id :| id in t.ops && Exposed(t.ops[id].stage) {
      var none := BeginCatches(t, id);
      var robbed, more := CaughtFaults(u, none, id);
    } else {
      DisposeKeepsSound(t, BeginDispose);
      forall more | Run(false, u, more) ensures !After(u, more).fault {
        SoundForGood(u, more);
      }
    }
  }

  lemma ClientAtRisk(t: State)
    requires Sound(t) && t.closing.Open? && ReadWhileOpen(t)
    ensures MayDangle(t.(closing := Flagged)) <==> exists id :: id in t.ops && BeforeNative(t.ops[id].stage)
  {
    var u := t.(closing := Flagged);
    if id :| id in t.ops && BeforeNative(t.ops[id].stage) {
      var none := BeginCatches(t, id);
      var more := CaughtDangles(u, none, id);
    } else {
      forall more | Run(false, u, more) ensures !After(u, more).dangling {
        PastForGood(u, more);
      }
    }
  }

  /** Whatever a call is doing, if it is exposed when Dispose begins, its own handle may be freed under it. */
  lemma {:induction false} DisposeUnderCall(careful: bool, s: State, steps: seq<Step>, id: CallId)
    returns (robbed: seq<Step>, more: seq<Step>)
    requires Init(s) && Run(careful, s, steps) && After(s, steps).closing.Open?
    requires id in After(s, steps).ops && Exposed(After(s, steps).ops[id].stage)
    ensures
      var u := Apply(After(s, steps), BeginDispose);
      Run(false, u, robbed) && Robbed(After(u, robbed), id) && Run(false, u, more) && After(u, more).fault
  {
    PendingTable(careful, s, steps);
    var none := BeginCatches(After(s, steps), id);
    robbed, more := CaughtFaults(Apply(After(s, steps), BeginDispose), none, id);
  }

  /**
   Awaiting every task is not enough: a task completes before its callback removes its entry. There is a run whose
   every task is complete, and in which beginning to dispose the client may still free a handle under a callback.
   */
  lemma {:induction false} AwaitedIsNotEnough(s: State, id: CallId, gc: GcHandle, r: NativeRef)
    requires Init(s)
    ensures Run(true, s, StepsOf(id, gc, r, false, 9))
    ensures
      var t := After(s, StepsOf(id, gc, r, false, 9));
      && t.closing.Open? && id in t.ops && (forall i :: i in t.ops ==> t.ops[i].task == Completed)
      && MayFault(Apply(t, BeginDispose))
  {
    OneCallRuns(s, id, gc, r, false, 9);
    var t := After(s, StepsOf(id, gc, r, false, 9));
    assert Exposed(t.ops[id].stage);
    DisposeIsSafe(true, s, StepsOf(id, gc, r, false, 9));
  }
}
