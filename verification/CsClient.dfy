// The client object's own bookkeeping, method by method, against the steps above.
module CsClient {
  import opened Common
  import opened CsAsync
  import opened CsDispose

  class KvStoreAsyncClient {
    var pendingOperations: map<nat, GcHandle>
    var operationId: nat
    var handles: map<GcHandle, CallId>
    var disposed: bool
    var handle: Option<nat>

    /** Around the native client that `handle` points to. */
    constructor (handle: nat)
      ensures forall s :: Init(s) ==> Shows(s)
      ensures this.handle == Some(handle)
    {
      pendingOperations, operationId, handles, disposed := map[], 0, map[], false;
      this.handle := Some(handle);
    }

    /** This object's part of a state of the machine. */
    ghost predicate Shows(s: State)
      reads this
    {
      && pendingOperations == s.pending && operationId == s.counter && handles == s.handles
      && (disposed <==> !s.closing.Open?) && (handle.None? <==> s.closing.Closed?)
    }

    /** GetRefAsync and SetAsync up to the native call: number, handle and entry, in that order. */
    method Register(id: CallId, gc: GcHandle, ghost s: State) returns (opId: nat)
      requires Shows(s) && At(s, id, Created) && gc !in handles
      modifies this
      ensures
        var s1 := Apply(s, Number(id));
        var s2 := Apply(s1, Alloc(id, gc));
        Shows(Apply(s2, Track(id))) && opId == Apply(s2, Track(id)).ops[id].opId
    {
      operationId := operationId + 1;
      opId := operationId;
      handles := handles[gc := id];
      pendingOperations := pendingOperations[opId := gc];
    }

    /** The end of OnGetComplete and OnSetComplete. */
    method Unregister(id: CallId, opId: nat, gc: GcHandle, ghost s: State)
      requires Shows(s) && At(s, id, Settled) && s.ops[id].opId == opId && s.ops[id].gc == gc
      modifies this
      ensures Shows(Apply(Apply(s, Untrack(id)), Free(id)))
    {
      pendingOperations := pendingOperations - {opId};
      handles := handles - {gc};
    }

    /** Frees, one by one, every handle in the table. Each entry has a handle of its own, still allocated. */
    method FreePending()
      requires forall n :: n in pendingOperations ==> pendingOperations[n] in handles
      requires forall m, n :: m in pendingOperations && n in pendingOperations && m != n ==>
        pendingOperations[m] != pendingOperations[n]
      modifies this`handles
      ensures handles == FreeAll(old(handles), pendingOperations)
    {
      var rest := pendingOperations;
      ghost var freed: set<GcHandle> := {};
      while rest != map[]
        invariant forall n :: n in rest ==> n in pendingOperations && rest[n] == pendingOperations[n]
        invariant forall n :: n in rest ==> rest[n] in handles
        invariant handles == old(handles) - freed && freed <= pendingOperations.Values
        invariant forall n :: n in pendingOperations ==> n in rest || pendingOperations[n] in freed
        decreases |rest|
      {
        var n :| n in rest;
        assert rest[n] in handles;
        handles := handles - {rest[n]};
        freed := freed + {rest[n]};
        assert |rest - {n}| < |rest| by { assert (rest - {n}).Keys == rest.Keys - {n}; }
        rest := rest - {n};
      }
      assert freed == pendingOperations.Values;
    }

    /** Dispose, if nothing comes between its steps: what it destroys, which second and later calls do not. */
    method Dispose(ghost s: State) returns (destroyed: Option<nat>)
      requires Shows(s) && (s.closing.Open? ==> Tabled(s)) && (s.closing.Open? || s.closing.Closed?)
      modifies this
      ensures Shows(if s.closing.Open? then DoDisposeClient(s) else s) && handle == None
      ensures destroyed == old(handle) && (destroyed.Some? <==> !old(disposed))
    {
      destroyed := None;
      if !disposed {
        disposed := true;
        FreePending();
        pendingOperations := map[];
        if handle.Some? {
          destroyed := handle;
          handle := None;
        }
      }
    }
  }
}
