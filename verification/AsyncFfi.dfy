// The asynchronous client changed in place (core-sdk/src/ffi_async.rs), against the steps of Machine.
module AsyncFfi {
  import opened Common
  import opened Http
  import opened Machine
  import opened Ownership
  import opened Cache
  import Counters
  import Ffi

  // ------------------------------------------------------------------ one heap, many clients

  /** The heap of the process: this client's strings, and those of `others`, at other places. */
  ghost predicate Joined(cells: Heap, own: Heap, others: Heap) {
    && (forall l :: l in cells <==> l in own || l in others)
    && (forall l :: l in own ==> l !in others && cells[l] == own[l])
    && (forall l :: l in others ==> cells[l] == others[l])
  }

  lemma JoinedFollows(cells: Heap, own: Heap, others: Heap, l: Loc)
    requires Joined(cells, own, others) && l in own
    ensures Joined(Retain(cells, l), Retain(own, l), others) && Joined(Drop(cells, l), Drop(own, l), others)
  {
  }

  lemma JoinedGrows(cells: Heap, own: Heap, others: Heap, l: Loc, text: Value, n: nat)
    requires Joined(cells, own, others) && l !in cells
    ensures Joined(cells[l := Cell(text, n)], own[l := Cell(text, n)], others)
  {
  }

  // ------------------------------------------------------------------ what the lookup steps change

  lemma HitChanges(s: State, id: OpId, key: Key)
    requires Looking(s, id) && KeyOf(s.ops[id].call) == Some(key) && Fresh(s, key)
    ensures
      var t := DoHit(s, id);
      && t.cfg == s.cfg && t.heap == Retain(s.heap, s.cache[key].ref.loc) && t.cache == s.cache
      && t.retired == s.retired && t.hits == (s.hits + 1) % WORD && t.misses == s.misses
      && t.box == s.box && t.clones == s.clones
  {
  }

  lemma MissChanges(s: State, id: OpId, key: Key)
    requires Looking(s, id) && KeyOf(s.ops[id].call) == Some(key) && s.cfg.async
    ensures
      var t := DoMiss(s, id);
      && t.cfg == s.cfg && t.heap == s.heap && t.cache == s.cache - {key}
      && t.retired == s.retired + Held(s.cache, key) && t.hits == s.hits && t.misses == (s.misses + 1) % WORD
      && t.box == s.box && t.clones == s.clones + 1
  {
  }

  /** The box behind the opaque pointer, and the handles on its cache that it and its tasks hold. */
  class KvStoreAsyncClient {
    const cache: KvCache
    var box: bool
    var clones: nat

    /** kv_store_async_init, whatever strings other clients already keep in the heap. */
    constructor (heap: Ffi.StringHeap, ttl: Time)
      ensures fresh(cache) && cache.heap == heap
      ensures forall s :: Init(s) && s.cfg == Config(true, ttl) ==> Shows(s, heap.cells)
    {
      cache := new KvCache(heap, ttl);
      box, clones := true, 1;
    }

    /** This client is the one in a state of the machine. */
    ghost predicate Shows(s: State, others: Heap)
      reads this, cache, cache.heap
    {
      && s.cfg == Config(true, cache.ttl) && Joined(cache.heap.cells, s.heap, others)
      && s.cache == cache.entries && s.retired == cache.retired
      && s.hits == cache.hits && s.misses == cache.misses
      && s.box == box && s.clones == clones
    }

    /** The lookup of a decoded key: a hit, or a task that holds a clone of the cache. */
    method LookUp(key: Key, now: Time, ghost id: OpId, ghost s: State, ghost others: Heap)
      returns (inline: Option<GetResult>)
      requires Shows(s, others) && EntriesAlive(s) && now == s.now && Looking(s, id)
      requires KeyOf(s.ops[id].call) == Some(key)
      modifies this, cache, cache.heap
      ensures Fresh(s, key) ==> Shows(DoHit(s, id), others) && inline == Some(ResultOf(Found(s.cache[key].ref)))
      ensures !Fresh(s, key) ==> Shows(DoMiss(s, id), others) && inline == None
    {
      if key in cache.entries {
        JoinedFollows(cache.heap.cells, s.heap, others, cache.entries[key].ref.loc);
      }
      var cached := cache.Get(key, now);
      if cached.Some? {
        HitChanges(s, id, key);
        inline := Some(ResultOf(Found(cached.value)));
      } else {
        MissChanges(s, id, key);
        clones := clones + 1;
        inline := None;
      }
    }

    /** The body of the task of a get once its reply is there. */
    method GetTask(key: Key, reply: HttpReply, loc: Loc, stamp: Stamp, now: Time,
                   ghost id: OpId, ghost s: State, ghost others: Heap)
      returns (result: GetResult)
      requires Shows(s, others) && now == s.now && AwaitingReply(s, id)
      requires s.ops[id].call.Get? && KeyOf(s.ops[id].call) == Some(key)
      requires loc !in cache.heap.cells && stamp == s.ops[id].stamp.GetOr(Stamp(0, 0))
      modifies cache, cache.heap
      ensures Ffi.Fetched(result, reply, loc)
      ensures GetOutcome(reply).Ok? ==>
                Shows(DoGotValue(s, id, reply, loc), others)
                && result == ResultOf(DoGotValue(s, id, reply, loc).ops[id].phase.answer)
      ensures GetOutcome(reply).Err? ==>
                Shows(DoGotFailure(s, id, reply), others)
                && result == ResultOf(DoGotFailure(s, id, reply).ops[id].phase.answer)
    {
      match GetOutcome(reply) {
        case Ok(value) =>
          JoinedGrows(cache.heap.cells, s.heap, others, loc, value, 2);
          var cached := cache.Insert(key, value, loc, stamp, now);
          result := ResultOf(Found(cached));
        case Err(code) =>
          result := ResultOf(Failed(code));
      }
    }

    /** The reference that insert returns is dropped at once; a failed set removes what the cache has for its key. */
    method SetTask(key: Key, value: Value, reply: HttpReply, loc: Loc, stamp: Stamp, now: Time,
                   ghost id: OpId, ghost s: State, ghost others: Heap)
      returns (code: ErrorCode)
      requires Shows(s, others) && now == s.now && AwaitingReply(s, id)
      requires s.ops[id].call == Set(Text(key), Text(value))
      requires loc !in cache.heap.cells && stamp == s.ops[id].stamp.GetOr(Stamp(0, 0))
      modifies cache, cache.heap
      ensures SetSays(reply, code)
      ensures Shows(if code == Success then DoGotStored(s, id, reply, loc) else DoGotFailure(s, id, reply), others)
    {
      match SetOutcome(reply) {
        case None =>
          JoinedGrows(cache.heap.cells, s.heap, others, loc, value, 1);
          ghost var cells := cache.heap.cells;
          var cached := cache.Insert(key, value, loc, stamp, now);
          cache.heap.Reclaim(cached);
          assert cache.heap.cells == cells[loc := Cell(value, 1)];
          code := Success;
        case Some(c) =>
          cache.Invalidate(key);
          code := c;
      }
    }

    /** A task that has run its callback gives up its handle on the cache; the last handle takes the entries with it. */
    method EndTask(ghost id: OpId, ghost s: State, ghost others: Heap)
      requires Shows(s, others) && clones > 0 && id in s.ops && s.ops[id].phase.Returning? && s.ops[id].asked
      modifies this`clones, cache
      ensures Shows(DoFinish(s, id), others)
    {
      clones := clones - 1;
      cache.Release(clones > 0);
    }
  }

  /** A call that spawned no task changes nothing of the client by ending. */
  lemma InlineFinishShows(s: State, id: OpId)
    requires id in s.ops && s.ops[id].phase.Returning? && !s.ops[id].asked && StoreAlive(s)
    ensures
      var t := DoFinish(s, id);
      && t.cfg == s.cfg && t.heap == s.heap && t.cache == s.cache && t.retired == s.retired
      && t.hits == s.hits && t.misses == s.misses && t.box == s.box && t.clones == s.clones
  {
  }

  // What the native functions do with a call before any callback.

  ghost function GetMoves(s: State, id: OpId, key: Raw): State
    requires Entering(s, id) && s.ops[id].call == Get(key)
  {
    if !key.Text? then DoReject(s, id)
    else if Fresh(s, key.text) then DoHit(s, id)
    else DoMiss(s, id)
  }

  ghost function SetMoves(s: State, id: OpId, key: Raw, value: Raw): State
    requires Entering(s, id) && s.ops[id].call == Set(key, value)
  {
    if !key.Text? || !value.Text? then DoReject(s, id) else DoSubmit(s, id)
  }

  /**
   Until it returns: it runs its callback at once with `inline`, or spawns a task. A null client or key, or a key
   that is not UTF-8, is InvalidInput and changes nothing of the client.
   */
  method KvStoreGetAsync(client: KvStoreAsyncClient?, key: Raw, now: Time,
                         ghost id: OpId, ghost s: State, ghost others: Heap)
    returns (inline: Option<GetResult>)
    requires client != null ==>
      && client.Shows(s, others) && EntriesAlive(s) && now == s.now
      && Entering(s, id) && s.ops[id].call == Get(key)
    modifies if client == null then {} else {client, client.cache, client.cache.heap}
    ensures client == null || !key.Text? ==> inline == Some(GetResult(InvalidInput, None, None))
    ensures client != null && !key.Text? ==>
              unchanged(client) && unchanged(client.cache) && unchanged(client.cache.heap)
    ensures client != null ==> client.Shows(GetMoves(s, id, key), others)
    ensures client != null && key.Text? ==>
              if key.text in s.cache && now < s.cache[key.text].born + client.cache.ttl
              then var ref := s.cache[key.text].ref; inline == Some(GetResult(Success, Some(ref), Some(ref)))
              else inline == None && client.clones == old(client.clones) + 1
  {
    if client == null || key.NullPtr? {
      return Some(ResultOf(Failed(InvalidInput)));
    }
    var k := Decode(key);
    if k.None? {
      return Some(ResultOf(Failed(InvalidInput)));
    }
    inline := client.LookUp(k.value, now, id, s, others);
  }

  /** Until it returns; an inline callback always says InvalidInput. */
  method KvStoreSetAsync(client: KvStoreAsyncClient?, key: Raw, value: Raw,
                         ghost id: OpId, ghost s: State, ghost others: Heap)
    returns (inline: Option<ErrorCode>)
    requires client != null ==> client.Shows(s, others) && Entering(s, id) && s.ops[id].call == Set(key, value)
    modifies if client == null then {} else {client}
    ensures inline == if client == null || !key.Text? || !value.Text? then Some(InvalidInput) else None
    ensures client != null ==> client.Shows(SetMoves(s, id, key, value), others)
    ensures client != null ==> client.clones == old(client.clones) + if inline.Some? then 0 else 1
  {
    if client == null || key.NullPtr? || value.NullPtr? {
      return Some(InvalidInput);
    }
    if Decode(key).None? {
      return Some(InvalidInput);
    }
    if Decode(value).None? {
      return Some(InvalidInput);
    }
    client.clones := client.clones + 1;
    return None;
  }

  /** `size` is an estimate here too. The counters are those of CounterAccounting. */
  method KvStoreAsyncCacheStats(client: KvStoreAsyncClient?, size: nat, ghost s: State, ghost others: Heap)
    returns (hits: nat, misses: nat, currentSize: nat)
    requires client != null ==> client.Shows(s, others) && Counters.Accounted(s)
    ensures client == null ==> hits == 0 && misses == 0 && currentSize == 0
    ensures client != null ==> currentSize == size
    ensures client != null ==>
              Counters.AddUp(hits, misses, |Counters.Lookups(s.ops)|, |Counters.Fetches(s.ops)|)
  {
    if client == null {
      return 0, 0, 0;
    }
    Counters.TallyAddsUp(s.hits, s.misses, Counters.Lookups(s.ops), Counters.Fetches(s.ops));
    return client.cache.hits, client.cache.misses, size;
  }

  method KvStoreAsyncCacheClear(client: KvStoreAsyncClient?, ghost s: State, ghost others: Heap)
    requires client != null ==> client.Shows(s, others)
    modifies if client == null then {} else {client.cache}
    ensures client != null ==> client.Shows(DoClear(s), others)
  {
    if client != null {
      client.cache.Clear();
    }
  }

  /** The box goes, with its handle on the cache; the tasks keep theirs. With the last handle go the entries. */
  method KvStoreAsyncDestroy(client: KvStoreAsyncClient?, ghost s: State, ghost others: Heap)
    requires client != null ==> client.Shows(s, others) && Enabled(s, Destroy) && client.clones > 0
    modifies if client == null then {} else {client, client.cache}
    ensures client != null ==> client.Shows(DoDestroy(s), others)
  {
    if client != null {
      client.box, client.clones := false, client.clones - 1;
      client.cache.Release(client.clones > 0);
    }
  }

  /**
   On the result of call `id`, or on null. The client pointer is not looked at: it may be null, or the client may
   be gone. A client that still shows the machine's state goes on doing so.
   */
  method KvStoreAsyncReleaseGet(client: KvStoreAsyncClient?, result: Ffi.KvGetResult?, heap: Ffi.StringHeap,
                                ghost id: OpId, ghost s: State, ghost others: Heap)
    requires Joined(heap.cells, s.heap, others)
    requires result != null ==> Conserved(s) && id in s.results && result.View() == s.results[id]
    modifies if result == null then {} else {result}, heap
    ensures result == null ==> heap.cells == old(heap.cells)
    ensures result != null ==>
              Joined(heap.cells, DoRelease(s, id).heap, others) && result.View() == DoRelease(s, id).results[id]
    ensures client != null && client.cache.heap == heap && old(client.Shows(s, others)) ==>
              client.Shows(if result == null then s else DoRelease(s, id), others)
  {
    if result != null && result.arcHandle.Some? {
      ResultOwned(s, id);
      JoinedFollows(heap.cells, s.heap, others, result.arcHandle.value.loc);
    }
    Ffi.ReleaseGet(result, heap);
  }
}
