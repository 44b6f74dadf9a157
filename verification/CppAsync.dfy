// Promise contexts and callbacks of the asynchronous C++ client (bindings/cpp/include/kv_store_async.hpp).
module CppAsync {
  import opened Common
  import opened Machine
  import opened Calls
  import opened Lifecycle
  import opened Ownership
  import AsyncFfi
  import Wrappers = CppWrappers
  import MoveOnly

  /**
   What a future holds: a wrapper for a get, nothing for a set, or the exception thrown by a failed set. Spent: the
   wrapper has been moved out.
   */
  datatype Outcome = Value(ref: Wrappers.ValueRef) | Done | Thrown(code: ErrorCode) | Spent

  /** The state shared by a promise and its future. */
  class Promise {
    var outcome: Option<Outcome>

    constructor ()
      ensures outcome == None
    {
      outcome := None;
    }

    /** std::promise refuses to be satisfied twice. */
    method Satisfy(outcome: Outcome)
      requires this.outcome == None
      modifies this
      ensures this.outcome == Some(outcome)
    {
      this.outcome := Some(outcome);
    }

    predicate Holds()
      reads this
    {
      outcome.Some? && outcome.value.Value?
    }
  }

  /** The native client is a token here, as is the leaked reference: the call that was given it. */
  datatype Context = GetContext(client: MoveOnly.Handle, promise: Promise) | SetContext(promise: Promise)

  function Wrapped(id: OpId, result: GetResult): Wrappers.GetResult {
    Wrappers.GetResult(result.code, if result.arc.Some? then Some(id) else None)
  }

  /** A wrapper that delivers the answer to the get `id`: owner of the string found, or an error that owns nothing. */
  ghost predicate Delivers(ref: Wrappers.ValueRef, id: OpId, answer: Answer)
    reads ref
  {
    match answer
    case Found(_) => ref.result.code == Success && ref.Owns() == Some(id)
    case Failed(code) => ref.result.code == code && ref.Owns() == None
    case Stored => false
  }

  /** What the future of a finished set holds. */
  function SetOutcomeOf(answer: Answer): Outcome {
    match answer
    case Failed(code) => Thrown(code)
    case _ => Done
  }

  /** A wrapper for the result is made on the stack and moved into the future; the husk that is left ends. */
  method WrapForFuture(client: MoveOnly.Handle, result: Wrappers.GetResult, native: Wrappers.Native)
    returns (ref: Wrappers.ValueRef)
    modifies native
    ensures fresh(ref) && ref.result == result && ref.Owns() == result.arc && native.released == old(native.released)
  {
    var local := new Wrappers.ValueRef(Some(client), result);
    ref := new Wrappers.ValueRef.MoveConstruct(local);
    local.Destruct(native);
  }

  /** The machine's own record of the callback of a call. */
  ghost predicate Completes(s: State, t: State, id: OpId) {
    && id in s.ops && s.ops[id].phase.Returning? && id in t.ops
    && t.ops == s.ops[id := t.ops[id]] && t.ctxs == s.ctxs - {s.ops[id].ctx}
    && t.ops[id].call == s.ops[id].call && t.ops[id].phase == Finished(s.ops[id].phase.answer)
  }

  lemma FinishCompletes(s: State, id: OpId)
    requires id in s.ops && s.ops[id].phase.Returning? && s.cfg.async
    ensures Completes(s, DoFinish(s, id), id)
  {
  }

  /** No other pending call has the context of this one. */
  ghost predicate OnlyUser(s: State, id: OpId)
    requires id in s.ops
  {
    forall j :: j in s.ops && Pending(s.ops[j]) && j != id ==> s.ops[j].ctx != s.ops[id].ctx
  }

  // ------------------------------------------------------------------ a call inside the native function

  lemma ContinuingKeepsUser(s: State, t: State, id: OpId)
    requires Continues(s, t, id) && OnlyUser(s, id)
    ensures OnlyUser(t, id)
  {
  }

  /** A new context is its call's own. */
  lemma BeginIsOnlyUser(s: State, id: OpId, ctx: Ctx, call: Call)
    requires OwnContexts(s) && s.cfg.async && Enabled(s, Begin(id, ctx, call))
    ensures OnlyUser(DoBegin(s, id, ctx, call), id)
  {
  }

  /** A call that begins changes nothing of the native client. */
  lemma BeginEnters(s: State, id: OpId, ctx: Ctx, call: Call)
    requires s.cfg.async && Clones(s) && Enabled(s, Begin(id, ctx, call))
    ensures
      var t := DoBegin(s, id, ctx, call);
      && Entering(t, id) && Fits(t.ops[id]) && t.ops[id].call == call && t.ops[id].ctx == ctx
      && t == s.(ops := t.ops, ctxs := t.ctxs) && t.clones > 0
    ensures EntriesAlive(s) ==> EntriesAlive(DoBegin(s, id, ctx, call))
    ensures call.Get? ==> AnswersAtOnce(DoBegin(s, id, ctx, call), call.key) == AnswersAtOnce(s, call.key)
  {
  }

  /** The call has its answer, and has spawned no task. */
  ghost predicate Decided(s: State, t: State, id: OpId) {
    Continues(s, t, id) && t.ops[id].phase.Returning? && !t.ops[id].asked && t.cfg.async && StoreAlive(t)
  }

  lemma RejectDecides(s: State, id: OpId)
    requires Entering(s, id) && Fits(s.ops[id]) && s.cfg.async && s.clones > 0
    ensures Decided(s, DoReject(s, id), id) && DoReject(s, id).ops[id].phase.answer == Failed(InvalidInput)
  {
  }

  lemma HitDecides(s: State, id: OpId)
    requires Enabled(s, Hit(id)) && Fits(s.ops[id]) && s.cfg.async && s.clones > 0
    ensures Decided(s, DoHit(s, id), id)
  {
  }

  lemma MissMoves(s: State, id: OpId)
    requires Looking(s, id)
    ensures Continues(s, DoMiss(s, id), id)
  {
  }

  lemma SubmitMoves(s: State, id: OpId)
    requires Entering(s, id)
    ensures Continues(s, DoSubmit(s, id), id)
  {
  }

  /** A callback that is run at once consumes its context, and leaves the native client as it was. */
  lemma EndsInline(s: State, t: State, id: OpId)
    requires Decided(s, t, id)
    ensures
      var u := DoFinish(t, id);
      && Completes(t, u, id)
      && u.cfg == t.cfg && u.heap == t.heap && u.cache == t.cache && u.retired == t.retired
      && u.hits == t.hits && u.misses == t.misses && u.box == t.box && u.clones == t.clones
  {
    FinishCompletes(t, id);
    AsyncFfi.InlineFinishShows(t, id);
  }

  /** Where the native functions leave a call when they return: its callback has run if it has its answer. */
  ghost function Returned(t: State, id: OpId): State
    requires id in t.ops
  {
    if t.ops[id].phase.Returning? then DoFinish(t, id) else t
  }

  /** The gets that are answered before the native function returns: bad keys, and hits. */
  function AnswersAtOnce(s: State, key: Raw): Option<Answer> {
    if !key.Text? then Some(Failed(InvalidInput))
    else if key.text in s.cache && s.now < s.cache[key.text].born + s.cfg.ttl then Some(Found(s.cache[key.text].ref))
    else None
  }

  /** A native get, whose inline result goes with a call that is decided. */
  method NativeGet(core: AsyncFfi.KvStoreAsyncClient, key: Raw, now: Time,
                   ghost id: OpId, ghost s: State, ghost others: Heap)
    returns (inline: Option<GetResult>)
    requires core.Shows(s, others) && now == s.now && EntriesAlive(s) && s.clones > 0
    requires Entering(s, id) && Fits(s.ops[id]) && s.ops[id].call == Get(key)
    modifies core, core.cache, core.cache.heap
    ensures Continues(s, AsyncFfi.GetMoves(s, id, key), id)
    ensures core.Shows(Returned(AsyncFfi.GetMoves(s, id, key), id), others)
    ensures inline.Some? <==> AnswersAtOnce(s, key).Some?
    ensures inline.Some? ==> AsyncFfi.GetMoves(s, id, key).ops[id].phase == Returning(AnswersAtOnce(s, key).value)
    ensures
      var t := AsyncFfi.GetMoves(s, id, key);
      if inline.Some? then Completes(t, Returned(t, id), id) && inline.value == ResultOf(t.ops[id].phase.answer)
      else Returned(t, id) == t
  {
    inline := AsyncFfi.KvStoreGetAsync(core, key, now, id, s, others);
    GetLeaves(s, id, key);
  }

  /** A callback that has run by then has left the native client as the lookup did. */
  lemma GetLeaves(s: State, id: OpId, key: Raw)
    requires Entering(s, id) && Fits(s.ops[id]) && s.ops[id].call == Get(key) && s.cfg.async && s.clones > 0
    ensures
      var t := AsyncFfi.GetMoves(s, id, key);
      var u := Returned(t, id);
      && Continues(s, t, id) && u.cfg == t.cfg && u.heap == t.heap && u.cache == t.cache && u.retired == t.retired
      && u.hits == t.hits && u.misses == t.misses && u.box == t.box && u.clones == t.clones
      && (if t.ops[id].phase.Returning? then Completes(t, u, id) else u == t)
      && (t.ops[id].phase.Returning? <==> AnswersAtOnce(s, key).Some?)
      && (t.ops[id].phase.Returning? ==> AnswersAtOnce(s, key) == Some(t.ops[id].phase.answer))
  {
    if !key.Text? {
      RejectDecides(s, id);
      EndsInline(s, DoReject(s, id), id);
    } else if Fresh(s, key.text) {
      HitDecides(s, id);
      EndsInline(s, DoHit(s, id), id);
    } else {
      MissMoves(s, id);
    }
  }

  method NativeSet(core: AsyncFfi.KvStoreAsyncClient, key: Raw, value: Raw,
                   ghost id: OpId, ghost s: State, ghost others: Heap)
    returns (inline: Option<ErrorCode>)
    requires core.Shows(s, others) && s.clones > 0
    requires Entering(s, id) && Fits(s.ops[id]) && s.ops[id].call == Set(key, value)
    modifies core
    ensures Continues(s, AsyncFfi.SetMoves(s, id, key, value), id)
    ensures core.Shows(Returned(AsyncFfi.SetMoves(s, id, key, value), id), others)
    ensures inline == if !key.Text? || !value.Text? then Some(InvalidInput) else None
    ensures
      var t := AsyncFfi.SetMoves(s, id, key, value);
      if inline.Some? then Completes(t, Returned(t, id), id) && t.ops[id].phase.answer == Failed(InvalidInput)
      else Returned(t, id) == t
  {
    inline := AsyncFfi.KvStoreSetAsync(core, key, value, id, s, others);
    SetLeaves(s, id, key, value);
  }

  /** A native set that returns has done nothing to its client but, perhaps, give a task a handle on the cache. */
  lemma SetLeaves(s: State, id: OpId, key: Raw, value: Raw)
    requires Entering(s, id) && Fits(s.ops[id]) && s.ops[id].call == Set(key, value) && s.cfg.async && s.clones > 0
    ensures
      var t := AsyncFfi.SetMoves(s, id, key, value);
      var u := Returned(t, id);
      && Continues(s, t, id) && u.cfg == s.cfg && u.heap == s.heap && u.cache == s.cache && u.retired == s.retired
      && u.hits == s.hits && u.misses == s.misses && u.box == s.box
      && u.clones == t.clones
      && if !key.Text? || !value.Text?
         then t == DoReject(s, id) && Completes(t, u, id) && t.ops[id].phase.answer == Failed(InvalidInput)
         else t == DoSubmit(s, id) && u == t
  {
    if !key.Text? || !value.Text? {
      RejectDecides(s, id);
      EndsInline(s, DoReject(s, id), id);
    } else {
      SubmitMoves(s, id);
    }
  }

  class KvStoreAsyncClient {
    const client: MoveOnly.Handle
    const core: AsyncFfi.KvStoreAsyncClient
    var live: map<Ctx, Context>
    ghost var futures: map<OpId, Promise>

    /** Around the client that `client` stands for. */
    constructor (client: MoveOnly.Handle, core: AsyncFfi.KvStoreAsyncClient)
      ensures this.client == client && this.core == core && forall s :: Init(s) ==> Shows(s)
    {
      this.client, this.core, live, futures := client, core, map[], map[];
    }

    ghost function Promises(): set<object>
      reads this
    {
      set id | id in futures :: futures[id]
    }

    /** The wrappers that wait in futures. */
    ghost function Held(): set<Wrappers.ValueRef>
      reads this, Promises()
    {
      set id | id in futures && futures[id].Holds() :: futures[id].outcome.value.ref
    }

    ghost predicate OwnPromises()
      reads this, Promises()
    {
      forall i, j :: i in futures && j in futures && i != j ==>
        && futures[i] != futures[j]
        && (futures[i].Holds() && futures[j].Holds() ==> futures[i].outcome.value.ref != futures[j].outcome.value.ref)
    }

    /** The context of a pending call holds its promise, still open. */
    ghost predicate Awaits(s: State, id: OpId)
      requires id in s.ops && id in futures
      reads this, futures[id]
    {
      && s.ops[id].ctx in live
      && live[s.ops[id].ctx].promise == futures[id] && futures[id].outcome == None
      && (s.ops[id].call.Get? <==> live[s.ops[id].ctx].GetContext?)
    }

    /** The future of a finished call delivers its answer, or has done so. */
    ghost predicate Ready(s: State, id: OpId)
      requires id in s.ops && id in futures
      reads this, futures[id], if futures[id].Holds() then {futures[id].outcome.value.ref} else {}
    {
      s.ops[id].phase.Finished? ==>
        && futures[id].outcome.Some?
        && (if s.ops[id].call.Set? then futures[id].outcome.value == SetOutcomeOf(s.ops[id].phase.answer)
            else if futures[id].Holds() then Delivers(futures[id].outcome.value.ref, id, s.ops[id].phase.answer)
            else futures[id].outcome.value.Spent?)
    }

    /** The contexts allocated are those of the machine, and a future is ready exactly when its call has finished. */
    ghost predicate Shows(s: State)
      reads this, Promises(), Held()
    {
      && live.Keys == s.ctxs && futures.Keys == s.ops.Keys && OwnPromises()
      && (forall id :: id in s.ops ==> if Pending(s.ops[id]) then Awaits(s, id) else Ready(s, id))
    }

    /** A context, with an open promise that nobody else has. */
    method AddContext(ctx: Ctx, context: Context, call: Call, ghost id: OpId, ghost s: State)
      requires Shows(s) && s.cfg.async && Enabled(s, Begin(id, ctx, call)) && (call.Get? <==> context.GetContext?)
      requires context.promise !in Promises() && context.promise.outcome == None
      modifies this
      ensures Shows(DoBegin(s, id, ctx, call)) && futures == old(futures)[id := context.promise]
    {
      live := live[ctx := context];
      futures := futures[id := context.promise];
      ghost var t := DoBegin(s, id, ctx, call);
      forall j | j in s.ops ensures if Pending(t.ops[j]) then Awaits(t, j) else Ready(t, j) {
        assert t.ops[j] == s.ops[j];
        assert if Pending(s.ops[j]) then old(Awaits(s, j)) else old(Ready(s, j));
      }
    }

    /** The first half of GetRefAsync. `ctx` is where the new context happens to be allocated. */
    method NewGetContext(ctx: Ctx, key: Raw, ghost id: OpId, ghost s: State) returns (future: Promise)
      requires Shows(s) && s.cfg.async && Enabled(s, Begin(id, ctx, Get(key)))
      modifies this
      ensures Shows(DoBegin(s, id, ctx, Get(key))) && futures == old(futures)[id := future]
      ensures fresh(future)
    {
      future := new Promise();
      AddContext(ctx, GetContext(client, future), Get(key), id, s);
    }

    method NewSetContext(ctx: Ctx, key: Raw, value: Raw, ghost id: OpId, ghost s: State) returns (future: Promise)
      requires Shows(s) && s.cfg.async && Enabled(s, Begin(id, ctx, Set(key, value)))
      modifies this
      ensures Shows(DoBegin(s, id, ctx, Set(key, value))) && futures == old(futures)[id := future]
      ensures fresh(future)
    {
      future := new Promise();
      AddContext(ctx, SetContext(future), Set(key, value), id, s);
    }

    lemma ContinuingShows(s: State, t: State, id: OpId)
      requires Shows(s) && Continues(s, t, id)
      ensures Shows(t) && futures[id].outcome == None
    {
      forall j | j in t.ops ensures if Pending(t.ops[j]) then Awaits(t, j) else Ready(t, j) {
        assert j in s.ops && (j != id ==> t.ops[j] == s.ops[j]);
        assert if Pending(s.ops[j]) then Awaits(s, j) else Ready(s, j);
      }
    }

    method PromiseOf(ctx: Ctx, ghost id: OpId, ghost s: State) returns (promise: Promise)
      requires Shows(s) && id in s.ops && Pending(s.ops[id]) && s.ops[id].ctx == ctx
      ensures promise == futures[id] && promise.outcome == None
    {
      assert Awaits(s, id);
      promise := live[ctx].promise;
    }

    /** What both callbacks do: satisfy the promise of the context they are given, and delete the context. */
    method Complete(ctx: Ctx, outcome: Outcome, ghost id: OpId, ghost s: State, ghost t: State)
      requires Shows(s) && Completes(s, t, id) && s.ops[id].ctx == ctx && OnlyUser(s, id)
      requires s.ops[id].call.Set? ==> outcome == SetOutcomeOf(s.ops[id].phase.answer)
      requires s.ops[id].call.Get? ==>
        outcome.Value? && outcome.ref !in Held() && Delivers(outcome.ref, id, s.ops[id].phase.answer)
      modifies this, futures[id]
      ensures Shows(t) && futures == old(futures) && futures[id].outcome == Some(outcome)
    {
      var promise := PromiseOf(ctx, id, s);
      promise.Satisfy(outcome);
      live := live - {ctx};
      forall j | j in t.ops && j != id ensures if Pending(t.ops[j]) then Awaits(t, j) else Ready(t, j) {
        assert t.ops[j] == s.ops[j] && futures[j] != promise;
        assert if Pending(s.ops[j]) then old(Awaits(s, j)) else old(Ready(s, j));
      }
    }

    /** get_callback: the result moves into the future, whose wrapper alone owns it, and the context is deleted. */
    method GetCallback(ctx: Ctx, result: Wrappers.GetResult, native: Wrappers.Native,
                       ghost id: OpId, ghost s: State, ghost t: State)
      requires Shows(s) && Completes(s, t, id) && OnlyUser(s, id)
      requires s.ops[id].call.Get? && s.ops[id].ctx == ctx
      requires result == Wrapped(id, ResultOf(s.ops[id].phase.answer)) && !s.ops[id].phase.answer.Stored?
      modifies this, futures[id], native
      ensures Shows(t) && futures == old(futures)
      ensures futures[id].Holds() && fresh(futures[id].outcome.value.ref)
      ensures Delivers(futures[id].outcome.value.ref, id, s.ops[id].phase.answer)
      ensures native.released == old(native.released)
    {
      assert Awaits(s, id);
      var ref := WrapForFuture(live[ctx].client, result, native);
      Complete(ctx, Value(ref), id, s, t);
    }

    /** std::future::get: the wrapper moves out to the program, which then alone owns what the get found. */
    method Take(ghost id: OpId, future: Promise, ghost s: State) returns (ref: Wrappers.ValueRef)
      requires Shows(s) && id in s.ops && futures[id] == future && future.Holds()
      modifies future, future.outcome.value.ref
      ensures Shows(s) && future.outcome == Some(Spent)
      ensures s.ops[id].phase.Finished? && fresh(ref) && Delivers(ref, id, s.ops[id].phase.answer)
    {
      var waiting := future.outcome.value.ref;
      assert if Pending(s.ops[id]) then Awaits(s, id) else Ready(s, id);
      ref := new Wrappers.ValueRef.MoveConstruct(waiting);
      future.outcome := Some(Spent);
      forall j | j in s.ops ensures if Pending(s.ops[j]) then Awaits(s, j) else Ready(s, j) {
        assert j != id ==> futures[j] != future;
        assert if Pending(s.ops[j]) then old(Awaits(s, j)) else old(Ready(s, j));
      }
    }

    /** set_callback. */
    method SetCallback(ctx: Ctx, code: ErrorCode, ghost id: OpId, ghost s: State, ghost t: State)
      requires Shows(s) && Completes(s, t, id) && OnlyUser(s, id)
      requires s.ops[id].call.Set? && s.ops[id].ctx == ctx
      requires code == ResultOf(s.ops[id].phase.answer).code
      requires code == Success <==> s.ops[id].phase.answer.Stored?
      modifies this, futures[id]
      ensures Shows(t) && futures == old(futures)
      ensures futures[id].outcome == Some(if code == Success then Done else Thrown(code))
    {
      Complete(ctx, if code == Success then Done else Thrown(code), id, s, t);
    }

    /** The native function runs the callback of a call that is decided before it returns, leaving `u`. */
    method AfterGet(ctx: Ctx, inline: Option<GetResult>, native: Wrappers.Native,
                    id: OpId, ghost s: State, ghost t: State, ghost u: State, ghost others: Heap)
      requires Shows(s) && Continues(s, t, id) && OnlyUser(s, id) && t.ops[id].call.Get? && t.ops[id].ctx == ctx
      requires if inline.Some? then Completes(t, u, id) && inline.value == ResultOf(t.ops[id].phase.answer) else u == t
      requires inline.Some? ==> !t.ops[id].phase.answer.Stored?
      requires core.Shows(u, others)
      modifies this, futures[id], native
      ensures Shows(u) && core.Shows(u, others)
      ensures futures == old(futures) && native.released == old(native.released)
      ensures if inline.Some?
              then futures[id].Holds() && Delivers(futures[id].outcome.value.ref, id, t.ops[id].phase.answer)
              else futures[id].outcome == None
    {
      ContinuingShows(s, t, id);
      ContinuingKeepsUser(s, t, id);
      if inline.Some? {
        GetCallback(ctx, Wrapped(id, inline.value), native, id, t, u);
      }
    }

    method AfterSet(ctx: Ctx, inline: Option<ErrorCode>,
                    ghost id: OpId, ghost s: State, ghost t: State, ghost u: State, ghost others: Heap)
      requires Shows(s) && Continues(s, t, id) && OnlyUser(s, id) && t.ops[id].call.Set? && t.ops[id].ctx == ctx
      requires if inline.Some? then Completes(t, u, id) && t.ops[id].phase.answer == Failed(InvalidInput) else u == t
      requires core.Shows(u, others) && (inline.Some? ==> inline.value == InvalidInput)
      modifies this, futures[id]
      ensures Shows(u) && core.Shows(u, others) && futures == old(futures)
      ensures futures[id].outcome == if inline.Some? then Some(Thrown(InvalidInput)) else None
    {
      ContinuingShows(s, t, id);
      ContinuingKeepsUser(s, t, id);
      if inline.Some? {
        SetCallback(ctx, inline.value, id, t, u);
      }
    }

    /** The native call, for a context just allocated. */
    method CallGet(ctx: Ctx, key: Raw, now: Time, native: Wrappers.Native,
                   id: OpId, ghost s: State, ghost others: Heap)
      requires Shows(s) && id in s.ops && OnlyUser(s, id) && core.Shows(s, others)
      requires now == s.now && EntriesAlive(s) && s.clones > 0
      requires Entering(s, id) && Fits(s.ops[id]) && s.ops[id].call == Get(key) && s.ops[id].ctx == ctx
      modifies this, futures[id], core, core.cache, core.cache.heap, native
      ensures
        var t := Returned(AsyncFfi.GetMoves(s, id, key), id);
        Shows(t) && core.Shows(t, others)
      ensures futures == old(futures) && native.released == old(native.released)
      ensures if AnswersAtOnce(s, key).None? then futures[id].outcome == None
              else futures[id].Holds() && Delivers(futures[id].outcome.value.ref, id, AnswersAtOnce(s, key).value)
    {
      var inline := NativeGet(core, key, now, id, s, others);
      ghost var t := AsyncFfi.GetMoves(s, id, key);
      AfterGet(ctx, inline, native, id, s, t, Returned(t, id), others);
    }

    method CallSet(ctx: Ctx, key: Raw, value: Raw, ghost id: OpId, ghost s: State, ghost others: Heap)
      requires Shows(s) && id in s.ops && OnlyUser(s, id) && core.Shows(s, others) && s.clones > 0
      requires Entering(s, id) && Fits(s.ops[id]) && s.ops[id].call == Set(key, value) && s.ops[id].ctx == ctx
      modifies this, futures[id], core
      ensures
        var t := Returned(AsyncFfi.SetMoves(s, id, key, value), id);
        Shows(t) && core.Shows(t, others)
      ensures futures == old(futures)
      ensures futures[id].outcome == if !key.Text? || !value.Text? then Some(Thrown(InvalidInput)) else None
    {
      var inline := NativeSet(core, key, value, id, s, others);
      ghost var t := AsyncFfi.SetMoves(s, id, key, value);
      AfterSet(ctx, inline, id, s, t, Returned(t, id), others);
    }

    /**
     The whole call: allocate the context, call the native function, return the future. When a null key, bad
     UTF-8 or a hit decides the call, the future holds that answer on return, and its context is gone; otherwise
     it is open.
     */
    method GetRefAsync(ctx: Ctx, key: Raw, now: Time, native: Wrappers.Native,
                       id: OpId, ghost s: State, ghost others: Heap)
      returns (future: Promise)
      requires Shows(s) && core.Shows(s, others) && now == s.now && Enabled(s, Begin(id, ctx, Get(key)))
      requires OwnContexts(s) && Clones(s) && EntriesAlive(s)
      modifies this, core, core.cache, core.cache.heap, native
      ensures
        var t := Returned(AsyncFfi.GetMoves(DoBegin(s, id, ctx, Get(key)), id, key), id);
        Shows(t) && core.Shows(t, others)
      ensures if AnswersAtOnce(s, key).None? then future.outcome == None
              else future.Holds() && Delivers(future.outcome.value.ref, id, AnswersAtOnce(s, key).value)
      ensures fresh(future) && futures == old(futures)[id := future] && native.released == old(native.released)
    {
      future := NewGetContext(ctx, key, id, s);
      ghost var t := DoBegin(s, id, ctx, Get(key));
      BeginIsOnlyUser(s, id, ctx, Get(key));
      BeginEnters(s, id, ctx, Get(key));
      assert core.Shows(t, others);
      CallGet(ctx, key, now, native, id, t, others);
    }

    method SetAsync(ctx: Ctx, key: Raw, value: Raw, ghost id: OpId, ghost s: State, ghost others: Heap)
      returns (future: Promise)
      requires Shows(s) && core.Shows(s, others) && Enabled(s, Begin(id, ctx, Set(key, value)))
      requires OwnContexts(s) && Clones(s)
      modifies this, core
      ensures
        var t := Returned(AsyncFfi.SetMoves(DoBegin(s, id, ctx, Set(key, value)), id, key, value), id);
        && Shows(t) && core.Shows(t, others)
        && future.outcome == if !key.Text? || !value.Text? then Some(Thrown(InvalidInput)) else None
      ensures fresh(future) && futures == old(futures)[id := future]
    {
      future := NewSetContext(ctx, key, value, id, s);
      BeginIsOnlyUser(s, id, ctx, Set(key, value));
      BeginEnters(s, id, ctx, Set(key, value));
      CallSet(ctx, key, value, id, DoBegin(s, id, ctx, Set(key, value)), others);
    }
  }
}
