// The synchronous client (core-sdk/src/ffi.rs over core-sdk/src/cache.rs): each call in one piece.
module SyncSpec {
  import opened Common
  import opened Http

  datatype Client = Client(cache: map<Key, Value>, hits: nat, misses: nat)

  /** What a call gives its caller. */
  datatype Response = Gave(text: Value) | Done | Error(code: ErrorCode)

  /** kv_store_get, with the reply its request would get if it sends one. */
  function GetStep(c: Client, key: Raw, reply: HttpReply): (Client, Response) {
    match Decode(key)
    case None => (c, Error(InvalidInput))
    case Some(k) =>
      if k in c.cache then (c.(hits := (c.hits + 1) % WORD), Gave(c.cache[k]))
      else
        var missed := c.(misses := (c.misses + 1) % WORD);
        match GetOutcome(reply)
        case Ok(text) => (missed.(cache := c.cache[k := text]), Gave(text))
        case Err(code) => (missed, Error(code))
  }

  /** kv_store_set, with the reply to its PUT. */
  function SetStep(c: Client, key: Raw, value: Raw, reply: HttpReply): (Client, Response) {
    if Decode(key).None? || Decode(value).None? then (c, Error(InvalidInput))
    else
      var k := Decode(key).value;
      match SetOutcome(reply)
      case None => (c.(cache := c.cache[k := Decode(value).value]), Done)
      case Some(code) => (c.(cache := c.cache - {k}), Error(code))
  }

  /** After a get that found a value, the next get of that key asks nobody and finds the same. */
  lemma ReadThrough(c: Client, key: Raw, reply: HttpReply, text: Value, later: HttpReply)
    requires GetStep(c, key, reply).1 == Gave(text)
    ensures
      var after := GetStep(c, key, reply).0;
      GetStep(after, key, later) == (after.(hits := (after.hits + 1) % WORD), Gave(text))
  {
  }

  /** After a set, the next get of that key finds what was set; after a failed one, it asks the server. */
  lemma WriteThrough(c: Client, key: string, value: Value, reply: HttpReply, later: HttpReply)
    ensures
      var (after, answer) := SetStep(c, Text(key), Text(value), reply);
      var next := GetStep(after, Text(key), later).1;
      && (answer == Done ==> next == Gave(value))
      && (answer != Done ==> next == match GetOutcome(later) case Ok(text) => Gave(text) case Err(code) => Error(code))
  {
  }

  /** A call leaves every other key as it was. */
  lemma OtherKeysUntouched(c: Client, key: Raw, value: Raw, reply: HttpReply, other: Key)
    requires Decode(key) != Some(other)
    ensures other in GetStep(c, key, reply).0.cache <==> other in c.cache
    ensures other in SetStep(c, key, value, reply).0.cache <==> other in c.cache
    ensures other in c.cache ==>
              && GetStep(c, key, reply).0.cache[other] == c.cache[other]
              && SetStep(c, key, value, reply).0.cache[other] == c.cache[other]
  {
  }
}

// The native functions themselves, one call at a time.
module SyncClient {
  import opened Common
  import opened Bags
  import opened Http
  import opened SyncSpec
  import opened SyncRuns
  import opened Machine
  import opened Cache
  import Ffi

  class KvStoreClient {
    const cache: KvCache

    constructor (heap: Ffi.StringHeap, ttl: Time)
      ensures fresh(cache) && cache.heap == heap && cache.ttl == ttl
      ensures forall now: Time :: New(At(now)) && Seen(At(now)) == Client(map[], 0, 0)
      ensures cache.View() == Books(map[], multiset{}, heap.cells)
    {
      cache := new KvCache(heap, ttl);
    }

    /** Where the client stands in a sequence of calls. */
    ghost function At(now: Time): Moment
      reads cache, cache.heap
    {
      Moment(cache.View(), cache.hits, cache.misses, now)
    }
  }

  /** The rest of a get whose key has been decoded. */
  method GetDecoded(client: KvStoreClient, key: Key, reply: HttpReply, loc: Loc, now: Time)
    returns (result: GetResult)
    requires Sound(client.cache.View()) && loc !in client.cache.heap.cells
    modifies client.cache, client.cache.heap
    ensures client.At(now) == PlayGet(client.cache.ttl, old(client.At(now)), key, reply, loc)
    ensures Gets(client.cache.ttl, old(client.At(now)), key, reply, loc, result)
  {
    var hit := client.cache.Get(key, now);
    if hit.Some? {
      return ResultOf(Found(hit.value));
    }
    match GetOutcome(reply) {
      case Ok(text) =>
        var cached := client.cache.Insert(key, text, loc, Stamp(0, now), now);
        result := ResultOf(Found(cached));
      case Err(code) =>
        result := ResultOf(Failed(code));
    }
  }

  /**
   `loc` is where a new string would be allocated, `reply` what a request would be answered, at time `now`.
   A null client or key, or a key that is not UTF-8, is InvalidInput and changes nothing.
   */
  method KvStoreGet(client: KvStoreClient?, key: Raw, reply: HttpReply, loc: Loc, now: Time)
    returns (result: GetResult)
    requires client != null ==> Sound(client.cache.View()) && loc !in client.cache.heap.cells
    modifies if client == null then {} else {client.cache, client.cache.heap}
    ensures client == null || !key.Text? ==> result == GetResult(InvalidInput, None, None)
    ensures client != null && !key.Text? ==> unchanged(client.cache) && unchanged(client.cache.heap)
    ensures client != null && key.Text? ==> Gets(client.cache.ttl, old(client.At(now)), key.text, reply, loc, result)
    ensures client != null && key.Text? ==>
              (Seen(client.At(now)), ResponseOf(result))
                == GetStep(SeenAt(client.cache.ttl, old(client.At(now)), key.text), key, reply)
    ensures client != null ==>
              client.At(now) == Play(client.cache.ttl, old(client.At(now)), GetCall(key, reply, loc))
  {
    if client == null || key.NullPtr? {
      return ResultOf(Failed(InvalidInput));
    }
    var k := Decode(key);
    if k.None? {
      return ResultOf(Failed(InvalidInput));
    }
    result := GetDecoded(client, k.value, reply, loc, now);
    GetFollows(client.cache.ttl, old(client.At(now)), k.value, reply, loc, result);
  }

  method SetDecoded(client: KvStoreClient, key: Key, value: Value, reply: HttpReply, loc: Loc, now: Time)
    returns (code: ErrorCode)
    requires loc !in client.cache.heap.cells
    modifies client.cache, client.cache.heap
    ensures client.At(now) == PlaySet(old(client.At(now)), key, value, reply, loc)
    ensures SetSays(reply, code)
  {
    match SetOutcome(reply) {
      case None =>
        ghost var cells := client.cache.heap.cells;
        var cached := client.cache.Insert(key, value, loc, Stamp(0, now), now);
        client.cache.heap.Reclaim(cached);
        assert client.cache.heap.cells == cells[loc := Cell(value, 1)];
        code := Success;
      case Some(c) =>
        client.cache.Invalidate(key);
        code := c;
    }
  }

  method KvStoreSet(client: KvStoreClient?, key: Raw, value: Raw, reply: HttpReply, loc: Loc, now: Time)
    returns (code: ErrorCode)
    requires client != null ==> loc !in client.cache.heap.cells
    modifies if client == null then {} else {client.cache, client.cache.heap}
    ensures client == null || !key.Text? || !value.Text? ==> code == InvalidInput
    ensures client != null && (!key.Text? || !value.Text?) ==>
              unchanged(client.cache) && unchanged(client.cache.heap)
    ensures client != null && key.Text? && value.Text? ==> SetSays(reply, code)
    ensures client != null ==>
              (Seen(client.At(now)), SetResponse(code)) == SetStep(Seen(old(client.At(now))), key, value, reply)
    ensures client != null ==>
              client.At(now) == Play(client.cache.ttl, old(client.At(now)), SetCall(key, value, reply, loc))
  {
    if client == null || key.NullPtr? || value.NullPtr? {
      return InvalidInput;
    }
    var k, v := Decode(key), Decode(value);
    if k.None? || v.None? {
      return InvalidInput;
    }
    code := SetDecoded(client, k.value, v.value, reply, loc, now);
    SetFollows(old(client.At(now)), k.value, v.value, reply, loc, code);
  }

  method KvStoreCacheClear(client: KvStoreClient?)
    modifies if client == null then {} else {client.cache}
    ensures client != null ==>
              && client.At(0) == Play(client.cache.ttl, old(client.At(0)), ClearCall)
              && Seen(client.At(0)) == Seen(old(client.At(0))).(cache := map[])
  {
    if client != null {
      client.cache.Clear();
    }
  }

  /** `size` is what the cache library estimates, which nothing here depends on. */
  method KvStoreCacheStats(client: KvStoreClient?, size: nat) returns (hits: nat, misses: nat, currentSize: nat)
    ensures client == null ==> hits == 0 && misses == 0 && currentSize == 0
    ensures client != null ==> currentSize == size
    ensures client != null ==> forall now: Time :: hits == client.At(now).hits && misses == client.At(now).misses
  {
    if client == null {
      return 0, 0, 0;
    }
    return client.cache.hits, client.cache.misses, size;
  }
}
