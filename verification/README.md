# A write-through cache and the strings it shares across languages

The system is a key-value server, a native client library that keeps a write-through cache in front of it, and
C++ and C# bindings that hold references into that cache without copying. Two protocols carry its guarantees,
and both are modelled here and proved about every run.

**The cache protocol.** A get looks in the cache, and on a miss asks the server, inserts what it learns and
returns it; a set writes the server, then inserts on success or invalidates on failure. Threads of a synchronous
client and tasks of an asynchronous one interleave those steps. `Machine` has one step for each: between any two
of them entries may be evicted or expire, the cache may be cleared, others may write or delete on the server, a
request may fail, and a failed PUT may or may not have been applied. The server is a map of versions, so that
what a value is worth can be stated: session guarantees, coherence, bounded staleness, refinement of the plain map.

**The ownership protocol.** A successful get leaks one strong count of the cached string to its caller, who gives
it back through a release function. Cache entries, removed entries not yet dropped, calls in flight, unreleased
results, C++ move-only wrappers, promise contexts, C# GC handles and value references all own something, and
each is accounted for at every moment.

## How it is laid out

- `Common`, `Bags`, `Http`, `Server`: values, multiset sums over maps, the reply mapping shared by both HTTP clients, the server and its history.
- `Machine`: the state of one native client and its world, the steps, and the disciplines a run may keep to.
- `Calls`, `Ownership`, `Lifecycle`, `Staleness`, `Session`, `Coherence`, `Race`, `Counters`, `Expiry`: one invariant
  each over every run of that machine, with the theorems it gives.
- `Ffi`, `Cache`, `SyncClient`, `AsyncFfi`: the code that changes a heap, a result, a cache or a client in place,
  as classes. The asynchronous methods are proved to take exactly the machine's steps; the synchronous ones to take
  exactly the moves of `SyncRuns`, whose theorems are about any sequence of calls, and to compute the functions of
  `SyncSpec`, about which `Refinement` proves trace refinement. `AsyncIsSync` relates both.
- `MoveOnly`, `CppWrappers`, `CppProgram`, `CppAsync`: the C++ wrappers, contexts and callbacks.
- `CsAsync`, `CsDispose`, `CsResults`, `CsOneCall`, `CsClient`, `DisposeOnce`: the C# clients.
- `CppEndToEnd`, `CsEndToEnd`, `CsLeak`: a program in either language joined to the native machine.

## What to know when reading it

- A run is any sequence of enabled steps from an initial state with any server history. `Discipline` says what
  its callers keep to: `Free` nothing, `PerKey` no two own calls on a key at once, `RaceFree` sole writer and no
  set overlapping another call on its key, `OneAtATime` each call answered before the next.
- Stamps on entries and calls (server version and time of access), the log of returns, and the reply that arrived
  and the dates on a call are history: no branch of the modelled code depends on them. `misuse` and `dangling` record an access to a dead
  client, store or context and to a freed string; the theorems say that neither is ever set.
- Keys stand for single path segments of unreserved characters (section 2.3 of RFC 3986, no dot segments), for
  which building and routing the URL is the identity. Success is any 2xx (section 15.3 of RFC 9110), and a
  404 (section 15.5.5) is only ever the server's own.
- The synchronous and the awaited HTTP client map replies in the same way, so `Http` states it once.
- An expired entry that a lookup meets leaves the cache at that lookup; nothing could return it later.
- A null pointer is a value (`NullPtr`): an empty C# span is pinned as null and so ends in InvalidInput.
- Native handles are tokens, one per leak: two results of one string are two handles.
- `bindings/cpp/include/kv_store.h:69` says that destroying a client invalidates its outstanding results. The
  code does not: results own their strings, and the model and its theorems follow the code.
- `CsResults.LeaksAreLostResults` is a finding: a successful C# result whose task was cancelled first is never
  released. The lemma says that this is the only leak, and when it occurs; `CsLeak.CancelledGetKeepsString` is a run
  in which a string outlives everything the program can do.
- `CsDispose.DisposeIsSafe` is a finding: what makes disposing the C# client safe is that no call stands between
  ThrowIfDisposed and TryRemove, which no caller can see. Completed tasks do not show it (`AwaitedIsNotEnough`).
- In the loop of the C# Dispose, `IsAllocated` asks the table's own copy of a handle, which nobody clears, so the
  loop frees every entry that it meets.
- `Race.EachOverlapGoesStale` is a finding too: a call that overlaps a set of its key can leave a stale entry
  that later gets report until it expires, though nobody else writes.
- A store whose last handle goes retires all its entries at that step; the copies are dropped later, one by one.
- The heap may hold the strings of other clients of the process; `AsyncFfi` keeps those apart as `others`.

## Model

| member | source | states |
|---|---|---|
| Session.SessionGuarantee | core-sdk/src/ffi_async.rs:146-171 | When one client's own calls on a key do not overlap, of any two answers about that key the later reports a server version no older: gets never go back and never miss an earlier successful set, and each version held exactly the reported value. Foreign writes and deletes, eviction, expiry, clear, failed sets and late PUTs are allowed |
| Session.SessionAlways | core-sdk/src/ffi_async.rs:213-228 | The invariant behind it, in every reachable state: entries and pending calls carry versions no older than any reported; a get that missed finds its key uncached |
| Coherence.RaceFreeCoherence | core-sdk/src/ffi_async.rs:213-225 | For a sole writer whose sets overlap no other call on their key: while no set on k runs, a cached value for k is the server's value |
| Coherence.RaceFreeGetsAreExact | core-sdk/src/ffi_async.rs:159-171 | Under the same condition, a get that returns reports what the server holds at the moment of its return, or that it holds nothing |
| Coherence.CoherentAlways | core-sdk/src/ffi.rs:253-265 | The invariant: an entry is at the latest version unless a set of its key has been applied and not yet answered; a set that failed unapplied has left no entry |
| Race.EachOverlapGoesStale | core-sdk/src/ffi_async.rs:159-171 | Each condition on overlaps is needed, for coherence and for the session guarantee: permit just one of set over get, get over set, set over set or get over get, and from every server holding a value, with a positive time to live, some run ends with nothing running and a stale entry, and a get that begins only then reports an older version than an answered call. With a set involved the client is the sole writer; two gets take one foreign write |
| Race.OtherWriteGoesStale | core-sdk/src/ffi_async.rs:213-225 | Nor is coherence possible when somebody else writes: a stale entry remains though no calls overlap |
| Race.LatePutGoesStale | core-sdk/src/ffi_async.rs:220-224 | Nor when a PUT of this client takes effect after its set has returned: a set fails, a get then caches what the server holds, and the late PUT leaves that stale, though no calls overlap |
| Staleness.BoundedStaleness | core-sdk/src/cache.rs:39-49 | With no assumption on races or writers: what a get reports at t was in force for exactly its key at an instant in [t - ttl - D, t], and in [t - D, t] if it asked the server, where D bounds the value's transit |
| Staleness.TruthAlways | core-sdk/src/ffi_async.rs:160-165 | In every reachable state each entry and each call carries a value that its key had, at the version and the instant of its stamp, and a hit met an unexpired entry |
| Refinement.CacheIsTransparent | core-sdk/src/ffi.rs:179-210 | Over every sequential sole-writer run of gets, sets and clears with eviction and expiry anywhere, every answer but a transport error equals that of the server map asked directly (KeyNotFound exactly when absent), and the map ends the same |
| Refinement.ActionSimulates | core-sdk/src/ffi.rs:229-274 | The simulation step: from a cache that agrees with the server, one action answers as the map does and leaves them agreeing |
| Refinement.SetSimulates | core-sdk/src/ffi.rs:253-265 | A set, applied or not, successful or not, leaves its key right in the cache or absent from it |
| AsyncIsSync.AsyncSimulatesSync | core-sdk/src/ffi_async.rs:123-229 | A run in which each call is answered before the next begins gives the answers of the synchronous client on the same calls and replies, in order, and ends with its cache, counters and server map |
| AsyncIsSync.RunSimulates | core-sdk/src/ffi.rs:179-266 | The relation at every moment of such a run, mid-call included: an answer about to be returned has been given, a fetch under way is already counted |
| AsyncIsSync.SameAnswer | core-sdk/src/ffi_async.rs:130-171 | The synchronous client, at the event of each deciding step, gives the answer that the call is about to return |
| Ownership.ReferenceConservation | core-sdk/src/ffi.rs:56-71 | In every reachable state of any interleaving, each string's strong count equals its cache entries plus retired copies plus references held by calls plus unreleased results, and no freed string is ever touched; every finished get has a result, which shows Success and the string found, still owned or given back, or the error and no string |
| Ownership.UnreleasedViewIsAlive | core-sdk/src/ffi_async.rs:148-150 | The pointer and length of an unreleased result denote allocated memory that reads what its get found, even after clear, eviction or destroy |
| Ownership.ReleasedExactlyOnce | core-sdk/src/ffi.rs:214-225 | Releasing a result takes one from the count of its string and from no other; releasing it again changes nothing |
| Ownership.DestroyedMeansFreed | core-sdk/src/ffi_async.rs:109-113 | In every reachable state a string is allocated only while some owner holds it; and once the client is destroyed, its calls ended, their results released and the retired copies dropped, none is allocated. That the cache is empty by then is derived |
| Ownership.TeardownFrees | core-sdk/src/cache.rs:31-35 | From every reachable state with the client destroyed, calls ended and results released, exactly as many drops of retired copies as remain lead to an empty heap |
| Ownership.AllEntriesOwned | core-sdk/src/cache.rs:54-65 | Conservation means that a cache entry always denotes an allocated string, so a hit can share it |
| Ownership.InsertConserves | core-sdk/src/cache.rs:69-73 | Inserting allocates one string with as many references as owners, and retires the entry it replaces |
| Lifecycle.NoUseAfterDestroy | core-sdk/src/ffi_async.rs:109-113 | Destroy at any moment callers allow is safe: no step ever touches a dead client, cache store or context; handles on the store are the box plus tasks in flight; contexts are in bijection with calls whose callback has not run; each answered call was answered once |
| Lifecycle.StoreLivesWhileHeld | core-sdk/src/ffi_async.rs:153-171 | In every reachable state the store lives exactly as long as the box, or some task of an asynchronous client, holds a handle, and a store that nobody holds has no entry left |
| Lifecycle.QuiescentMeansComplete | bindings/cpp/include/kv_store_async.hpp:112-137 | When no step of a call remains possible, every callback has run, no context is live, and only the box can still hold the store |
| Lifecycle.InlineCallsSpawnNothing | core-sdk/src/ffi_async.rs:130-150 | A null argument or bad UTF-8 can only be rejected with InvalidInput, before anything is looked up or counted; that and a hit spawn no task, take no handle, ask the server nothing, and leave only the callback to run |
| Calls.SchedulesEnd | core-sdk/src/ffi_async.rs:185-228 | With no new calls, every schedule of what remains is bounded by a measure that each step of a call decreases |
| Calls.PendingCanStep | core-sdk/src/ffi_async.rs:123-171 | No pending call is ever stuck, whatever the discipline |
| Calls.EveryAnswerFits | core-sdk/src/ffi.rs:184-209 | In every run: InvalidInput exactly for a null or undecodable argument and exactly without a request; otherwise a call that asked answers by what came of its request: success for a 2xx (with a readable value for a get, which is the value found), KeyNotFound exactly for the server's own 404 to a get, ConnectionError exactly when no reply came, InternalError exactly for any other reply |
| Counters.CounterAccounting | core-sdk/src/cache.rs:54-65 | Misses are the fetches queued, running or ended, and hits the other gets that have done their lookup: exactly so for fewer than 2^64 lookups, and as 64-bit words after that |
| Counters.OtherStepsDoNotCount | core-sdk/src/ffi.rs:196-209 | Every step but a lookup (sets, releases, clears, callbacks) changes neither counter nor what they count |
| Expiry.HitIffYoung | core-sdk/src/cache.rs:39-49 | In every run and interleaving: once a reply has put a value in the cache, and while no eviction, clear, later insertion or failed set displaces it, a get of its key hits if and only if less than the time to live has passed, and finds that very string; otherwise it misses |
| SyncSpec.ReadThrough | core-sdk/src/ffi.rs:196-207 | After a get that found a value, the next get of that key is a hit with the same value whatever the server says |
| SyncSpec.WriteThrough | core-sdk/src/ffi.rs:253-265 | After a successful set the next get finds what was set; after a failed one it asks the server |
| SyncSpec.OtherKeysUntouched | core-sdk/src/ffi.rs:254-265 | A get or set leaves the entry of every other key as it was |
| SyncClient.KvStoreGet | core-sdk/src/ffi.rs:179-210 | The function in place. A null client or key or bad UTF-8 gives InvalidInput and changes nothing. Otherwise a hit gives the entry's own string exactly when it has not expired, and a miss gives the reply's value, KeyNotFound for a 404, ConnectionError for no reply, InternalError for the rest; entries, their dates, retired copies, strong counts and counters are those of `SyncRuns.Play`, and answer and cache those of the specification |
| SyncRuns.GetConserves | core-sdk/src/ffi.rs:196-209 | Where each string has as many references as entries, retired copies and results owed, it still has after a get, the new result owed included: no reference is lost or left over |
| SyncRuns.SetConserves | core-sdk/src/ffi.rs:253-265 | The same after a set, which leaves nothing owed: the string it inserts is owned by the cache alone |
| SyncClient.KvStoreSet | core-sdk/src/ffi.rs:229-266 | The same for a set: InvalidInput and no change exactly for null or undecodable arguments, Success for a 2xx, ConnectionError for no reply, InternalError for the rest, and the new state is that of `SyncRuns.Play` and of the specification |
| SyncRuns.HitIffLearned | core-sdk/src/ffi.rs:196-209 | After any sequence of synchronous calls, evictions and waits, a get hits if and only if less than the time to live ago a successful set, or a get that asked, learned a value of its key that no set, clear or eviction has displaced, and gives that value; otherwise it gives what its reply brings. So no answer is older than the time to live, and none younger is forgotten |
| SyncRuns.EveryEntryWasLearned | core-sdk/src/cache.rs:69-73 | Every entry was born during the run, at the moment of the call that learned its value |
| SyncRuns.LearnedForTtl | core-sdk/src/cache.rs:40-43 | From any moment, what one call learns can be looked up exactly while less than the time to live has passed |
| SyncRuns.StatsAreCounts | core-sdk/src/ffi.rs:278-293 | After any calls the counters are the numbers of gets that hit and of gets that missed: exactly so for fewer than 2^64 lookups, and as 64-bit words after that |
| SyncClient.KvStoreCacheClear | core-sdk/src/ffi.rs:270-274 | Empties the cache into the retired copies and keeps the counters; null does nothing |
| SyncClient.KvStoreCacheStats | core-sdk/src/ffi.rs:278-293 | The two counters, of which `SyncRuns.StatsAreCounts` says what they count, and the size estimate, or zeros for a null client |
| Cache.KvCache.Get | core-sdk/src/cache.rs:54-65 | A hit exactly when an unexpired entry exists: one more reference and one more hit; otherwise one more miss and no entry left; the counters are 64-bit words |
| Cache.KvCache.Insert | core-sdk/src/cache.rs:69-73 | One new string with two references, the entry's and the returned one; the replaced entry is retired |
| Cache.KvCache.Invalidate | core-sdk/src/cache.rs:77-79 | Exactly the entry of that key leaves the map, into the retired copies |
| Cache.KvCache.Clear | core-sdk/src/cache.rs:82-84 | Every entry leaves the map, each into the retired copies |
| Cache.KvCache.Release | core-sdk/src/cache.rs:31-35 | Dropping a handle keeps every entry while another remains, and retires every entry with the last |
| Cache.ClearBalances | core-sdk/src/ffi.rs:270-274 | A clear keeps the books balanced: entries become retired copies |
| Cache.ReleaseBalances | core-sdk/src/ffi.rs:220-224 | Giving an owed reference back keeps the books balanced, with that reference no longer owed |
| AsyncFfi.KvStoreAsyncClient.constructor | core-sdk/src/ffi_async.rs:100-105 | A new client shows every initial state of the machine, whatever strings other clients keep in the heap |
| AsyncFfi.KvStoreGetAsync | core-sdk/src/ffi_async.rs:123-157 | Takes exactly the machine's step. A null client or key or bad UTF-8 is InvalidInput inline and changes nothing; otherwise the entry's own string inline exactly when it has not expired, or else a task holding a clone; the strings of other clients stay |
| AsyncFfi.KvStoreAsyncClient.GetTask | core-sdk/src/ffi_async.rs:159-171 | Takes exactly the step for its reply: insert and share, or leave the cache untouched; the result is the reply's value, KeyNotFound for a 404, ConnectionError for no reply, InternalError for the rest |
| AsyncFfi.KvStoreSetAsync | core-sdk/src/ffi_async.rs:176-211 | InvalidInput inline, and no handle taken, exactly when client, key or value is null or undecodable; otherwise a task holding a clone |
| AsyncFfi.KvStoreAsyncClient.SetTask | core-sdk/src/ffi_async.rs:213-228 | Insert with a single reference on success, invalidate on failure; Success for a 2xx, ConnectionError for no reply, InternalError for the rest |
| AsyncFfi.KvStoreAsyncClient.EndTask | core-sdk/src/ffi_async.rs:170-171 | A task that ends gives up its clone, and the entries too if that was the last |
| AsyncFfi.KvStoreAsyncCacheClear | core-sdk/src/ffi_async.rs:269-273 | Takes the machine's clear step; null does nothing |
| AsyncFfi.KvStoreAsyncCacheStats | core-sdk/src/ffi_async.rs:250-265 | Reports the numbers of lookups that hit and of fetches, as words, in every state that `Counters` describes; zeros for null |
| AsyncFfi.KvStoreAsyncDestroy | core-sdk/src/ffi_async.rs:109-113 | The box goes with its one handle on the store, and the entries too if that was the last; tasks keep theirs; null does nothing |
| AsyncFfi.KvStoreAsyncReleaseGet | core-sdk/src/ffi_async.rs:233-246 | Takes the machine's release step on heap and result whatever the client pointer, null included; the conservation law supplies that the string is there; a null result changes nothing |
| Ffi.KvGetResult.Success | core-sdk/src/ffi.rs:56-71 | The result views and owns the string handed to it, whose count stays |
| Ffi.KvGetResult.Error | core-sdk/src/ffi.rs:73-80 | An error result has neither view nor reference |
| Ffi.ReleaseGet | core-sdk/src/ffi.rs:214-225 | Null result and second release do nothing; otherwise one count goes, the handle is nulled, view and code stay |
| Server.KvServer.GetValue | server/src/main.rs:42-56 | 200 with the value in force, or 404 |
| Server.KvServer.SetValue | server/src/main.rs:59-66 | The map's key takes the value and its history one more version |
| Server.KvServer.DeleteValue | server/src/main.rs:69-83 | A present key goes, with one more version; an absent one is a 404 and makes none |
| Server.GetReplyDecodes | core-sdk/src/client.rs:50-57 | What the server says of a key is what the client makes of it: the value, or KeyNotFound |
| Versions.StoreAfterWrite | server/src/main.rs:64-64 | The map is the tip of the history: a write changes exactly its key |
| MoveOnly.UniqueOwnership | bindings/cpp/include/kv_store.hpp:93-124 | Over any sequence of gets, moves, self-assignments and destructions over any pool of wrappers, each handle issued is owned by exactly one wrapper or has been released exactly once |
| MoveOnly.OneOwnerThenOneRelease | bindings/cpp/include/kv_store_async.hpp:32-63 | No two wrappers own one handle, an owned handle is not yet released, and once all wrappers are gone every handle issued has been released once |
| MoveOnly.ReleasedOnlyByItsOwner | bindings/cpp/include/kv_store.hpp:98-124 | A handle is released only when its owner is destroyed or assigned over |
| CppWrappers.ValueRef.MoveConstruct | bindings/cpp/include/kv_store.hpp:109-112 | Ownership moves; the source keeps its result but owns nothing |
| CppWrappers.ValueRef.MoveAssign | bindings/cpp/include/kv_store.hpp:114-124 | Releases what the target owned, then moves; self-assignment changes nothing |
| CppWrappers.ValueRef.Destruct | bindings/cpp/include/kv_store.hpp:98-102 | Releases what the wrapper owns, if anything |
| CppWrappers.KvStoreClient.MoveConstruct | bindings/cpp/include/kv_store.hpp:184-186 | The client handle moves and the source is null |
| CppWrappers.KvStoreClient.MoveAssign | bindings/cpp/include/kv_store_async.hpp:179-188 | Destroys the client the target owned, then moves; self-assignment changes nothing |
| CppWrappers.KvStoreClient.Destruct | bindings/cpp/include/kv_store.hpp:173-177 | Destroys the client the wrapper owns, if any |
| CppProgram.Program.MoveAssign | bindings/cpp/include/kv_store_async.hpp:48-58 | On any set of live wrappers the assignment operator does exactly what the pool's step does, aliasing included |
| CppProgram.Program.MoveConstruct | bindings/cpp/include/kv_store_async.hpp:43-46 | The same for the move constructor |
| CppProgram.Program.Destruct | bindings/cpp/include/kv_store_async.hpp:35-39 | The same for the destructor |
| CppProgram.Program.Acquire | bindings/cpp/include/kv_store_async.hpp:32-33 | The same for wrapping a result |
| CppProgram.Clients.Construct | bindings/cpp/include/kv_store.hpp:159-171 | A null handle throws and leaves no wrapper; any other is owned by the new wrapper |
| CppProgram.Clients.MoveConstruct | bindings/cpp/include/kv_store_async.hpp:175-177 | Client wrappers run the same pool: each client handle has one owner and is destroyed once |
| CppProgram.Clients.MoveAssign | bindings/cpp/include/kv_store.hpp:188-197 | The same for assignment, self-assignment included |
| CppProgram.Clients.Destruct | bindings/cpp/include/kv_store.hpp:173-177 | The same for the destructor |
| CppEndToEnd.ProgramLeavesNothing | bindings/cpp/include/kv_store_async.hpp:35-58 | Program and native client together, over every interleaving of native steps, gets wrapped, moves, assignments and destructions: once the client is destroyed, calls and wrappers have ended and the retired copies are dropped, no string is allocated |
| CppEndToEnd.WrapperViewsAlive | bindings/cpp/include/kv_store_async.hpp:61-66 | While a wrapper owns a result, its view is the string that its get found, allocated and reading that text, even after the client is destroyed |
| CppAsync.KvStoreAsyncClient.GetRefAsync | bindings/cpp/include/kv_store_async.hpp:194-207 | The whole call, native function and inline callback included: binding and native client end in the same state of the machine. On return the future holds a wrapper that shows InvalidInput and owns nothing for null or bad UTF-8, or one with code Success that owns this call's reference for an unexpired entry; otherwise it is open |
| CppAsync.KvStoreAsyncClient.SetAsync | bindings/cpp/include/kv_store_async.hpp:243-258 | The same for a set, whose future is ready on return exactly for null or undecodable arguments, with InvalidInput |
| CppAsync.KvStoreAsyncClient.GetCallback | bindings/cpp/include/kv_store_async.hpp:112-121 | Satisfies exactly this call's promise with a new wrapper: code Success and sole owner of the reference if a value was found, the error's code and no reference otherwise; releases nothing, and deletes exactly this context |
| CppAsync.KvStoreAsyncClient.SetCallback | bindings/cpp/include/kv_store_async.hpp:124-137 | Satisfies exactly this call's promise, with an exception exactly when the code is not success, and deletes exactly this context |
| CppAsync.KvStoreAsyncClient.Take | bindings/cpp/include/kv_store_async.hpp:43-46 | What a program moves out of a ready future is that delivery of its call's answer, once; every other future keeps its own |
| CsAsync.PendingTable | bindings/csharp/KvStore/KvStoreAsyncClient.cs:176-193 | In every interleaving of threads, synchronous callbacks, cancellation and the single steps of a Dispose that begins only when no call stands between ThrowIfDisposed and TryRemove (and, without that condition, until Dispose begins): ids are distinct; from before the native call until its removal each id maps to its call's own allocated handle; each callback meets its own context and frees its own handle once; no native function uses a client that is gone |
| CsDispose.DisposeIsSafe | bindings/csharp/KvStore/KvStoreAsyncClient.cs:365-391 | In every reachable state before Dispose begins: some continuation of it frees a handle twice or under a callback if and only if a call stands between ThrowIfDisposed and TryRemove, and some continuation lets a native function use the destroyed client if and only if a call stands between ThrowIfDisposed and that use. Flag, loop, each Free, Clear, destroy and nulling are separate steps |
| CsDispose.AwaitedIsNotEnough | bindings/csharp/KvStore/KvStoreAsyncClient.cs:324-330 | Awaiting every task does not make it safe: in a run whose every task has completed, a callback has yet to remove its entry, and Dispose may free the handle under it |
| CsDispose.UninterruptedDispose | bindings/csharp/KvStore/KvStoreAsyncClient.cs:373-386 | With nothing in between, the steps of Dispose free exactly the handles in the table, clear it, and destroy and null the client |
| CsDispose.DisposeUnderCall | bindings/csharp/KvStore/KvStoreAsyncClient.cs:375-381 | Whatever an exposed call is doing when Dispose begins, some continuation frees that very call's handle, and its own next steps meet it freed |
| CsResults.ResultConservation | bindings/csharp/KvStore/KvStoreAsyncClient.cs:317-331 | References delivered are, one for one, released, still in their callback, in an undisposed reference reachable through its completed task, or lost to an earlier cancellation; the first of cancel and complete settles the task |
| CsResults.SettledForGood | bindings/csharp/KvStore/KvStoreAsyncClient.cs:165-166 | A settled task keeps its outcome |
| CsResults.LeaksAreLostResults | bindings/csharp/KvStore/KvStoreAsyncClient.cs:319-324 | With every call ended and every reachable result disposed, what is not released is exactly what lost to a cancellation; all is released if and only if no get that succeeded had its token fire before its callback disposed the registration |
| CsResults.CancelledGetLeaks | bindings/csharp/KvStore/KvStoreAsyncClient.cs:165-166 | The leak is reachable: a get cancelled while its native call runs, which then succeeds, ends with its reference delivered and never released |
| CsEndToEnd.ProgramLeavesLostResults | bindings/csharp/KvStore/KvStoreAsyncClient.cs:317-324 | Managed and native client together: once a program has disposed all it can reach, every call has ended, the native client is destroyed and the retired copies are dropped, no string is allocated if and only if no get that succeeded had its token fire before its callback disposed the registration |
| CsLeak.CancelledGetKeepsString | bindings/csharp/KvStore/KvStoreAsyncClient.cs:165-166 | From every server holding a value for a key, some such run ends with a string still allocated |
| CsClient.KvStoreAsyncClient.Register | bindings/csharp/KvStore/KvStoreAsyncClient.cs:176-183 | Number, handle and entry together make the machine's three steps |
| CsClient.KvStoreAsyncClient.Unregister | bindings/csharp/KvStore/KvStoreAsyncClient.cs:326-331 | Removes exactly this call's entry and frees exactly its handle |
| CsClient.KvStoreAsyncClient.FreePending | bindings/csharp/KvStore/KvStoreAsyncClient.cs:375-380 | Frees exactly the handles in the table, each once and while it is allocated |
| CsClient.KvStoreAsyncClient.Dispose | bindings/csharp/KvStore/KvStoreAsyncClient.cs:365-391 | Uninterrupted, it comes to what the machine's steps come to; the first call destroys the native client and nulls the handle, and no later one destroys anything |
| DisposeOnce.DestroyedOnce | bindings/csharp/KvStore/KvStoreClient.cs:187-204 | For any number of threads and any interleaving of test, lock, re-test, flag and destroy: destroyed at most once, and exactly once if any Dispose has returned from the lock |
| DisposeOnce.InvAlways | bindings/csharp/KvStore/KvStoreClient.cs:191-202 | In every reachable state one thread at most is in the lock, and flag, handle and count agree with where it stands |

## Left out

- Interleaving inside the classes: a method of `AsyncFfi`, `CppAsync` or `CsClient` is one atomic piece of code;
  the interleavings of those pieces are runs of `Machine` and `CsAsync`, which the methods are tied to.
- CsAsync.PendingTable: does not cover a Dispose that begins while a call is exposed, which `DisposeIsSafe` shows to be exactly the unsafe case.
- CsClient.KvStoreAsyncClient.Dispose: is the code inside the lock, uninterrupted; the lock and the two tests around it are those of `DisposeOnce`, and interruptions are those of `CsDispose`.
- CsEndToEnd.ProgramLeavesLostResults: leaves when the managed client destroys the native one open to every moment that the machine allows, instead of tying it to Dispose.
- Coherence.RaceFreeCoherence: does not cover a PUT that is applied after its set has returned; the session and staleness results do, as a foreign write.
- Refinement.CacheIsTransparent: excludes the same late PUTs.
- Staleness.BoundedStaleness: the request timeout enters only as part of the bound D on transit; clocks are one counter.
- Counters.CounterAccounting: a lookup and its counter are one step, so the instant between them is not modelled.
- The inside of moka, reqwest, tokio, DashMap, axum and serde: abstract maps, tasks and outcomes stand for them. No size bound is claimed, since eviction is deferred; removal is arbitrary.
- HTTP, JSON, percent-encoding and UTF-8 decoding: `Decode` is a partial function and a reply is a status and a body.
- Client construction: config marshalling, URL trimming and null config. Memory exhaustion and overflow of a strong count.
- Null client pointers in the machine, where no such call begins; the methods in `SyncClient` and `AsyncFfi` cover them.
- SyncClient.KvStoreCacheStats: passes on the size that moka estimates, and says nothing of how that relates to the entries, because the estimate lags behind by an amount moka does not bound.
- AsyncFfi.KvStoreAsyncCacheStats: the same.
- The server's pre-populated test keys and its health route: any initial map is covered.
- C++ `FireAndForget` and the deferred string wrappers, and a promise that throws while being satisfied: easy members or allocation failure.
- The synchronous C# `GetRef`, `Get`, `TryGet`, `Set` and `ValueRef`: the same calls and the same single release that the asynchronous classes make, without concurrency.
- Caller misuse: releasing copies of a raw result, viewing a moved-from or released wrapper, using a client after or during its destruction.
- Error-code enumerations, struct layouts, exception classes, benchmarks, build scripts and the documents under `findings/`.
