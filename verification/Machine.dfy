/**
 One native client (core-sdk/src/ffi.rs when synchronous, ffi_async.rs when asynchronous), its cache,
 the strings it shares with its callers, the server, and everything that may happen between two steps
 of a call. Calls of many threads or tasks interleave step by step.
 */
module Machine {
  import opened Common
  import opened Bags
  import opened Http
  import opened Versions
  import opened Server

  type Loc = nat
  type OpId = nat
  type Ctx = nat

  datatype Config = Config(async: bool, ttl: Time)

  /** A reference-counted string as an owner sees it: where it is and what it must read. */
  datatype Ref = Ref(loc: Loc, text: Value)

  /** The allocation behind an Arc<String>. */
  datatype Cell = Cell(text: Value, strong: nat)

  type Heap = map<Loc, Cell>

  /** History: the server version a value came from, and the moment the server was read or written. */
  datatype Stamp = Stamp(version: nat, access: Time)

  datatype Entry = Entry(ref: Ref, stamp: Stamp, born: Time)

  datatype Call = Get(key: Raw) | Set(key: Raw, value: Raw)

  datatype Answer = Found(ref: Ref) | Stored | Failed(code: ErrorCode)

  /**
   Entered: inside the native function, nothing examined yet. Sending: its request is out.
   Returning: the answer is determined. Finished: it has been returned, or its callback has run.
   */
  datatype Phase = Entered | Sending | Returning(answer: Answer) | Finished(answer: Answer)

  /**
   `ctx` is the user_data of an asynchronous call. `asked` says that a request was issued.
   `reply` is what the server has answered, `arrived` what came of the request: that, or a failure on the way.
   `stamp` is the version this call read or wrote.
   `looked` and `born` date the cache lookup and the insertion of the entry that it hit.
   */
  datatype Op = Op(call: Call, ctx: Ctx, phase: Phase, asked: bool, reply: Option<HttpReply>,
                   arrived: Option<HttpReply>, stamp: Option<Stamp>, looked: Time, born: Time)

  /** KvGetResult: `value` is the pointer and length, `arc` the leaked reference, if still held. */
  datatype GetResult = GetResult(code: ErrorCode, value: Option<Ref>, arc: Option<Ref>)

  /**
   `box` is the client behind the opaque pointer. `clones` counts the handles on the cache store.
   `dangling` records a touch of a freed string, `misuse` one of a dead client, store or context.
   `retired` are removed entries whose Arc the cache has yet to drop.
   */
  datatype State = State(
    cfg: Config, now: Time, history: History,
    heap: Heap, cache: map<Key, Entry>, retired: multiset<Ref>,
    ops: map<OpId, Op>, results: map<OpId, GetResult>, log: seq<OpId>,
    ctxs: set<Ctx>, box: bool, clones: nat,
    hits: nat, misses: nat, dangling: bool, misuse: bool)

  datatype Step =
    | Tick
    | ForeignPut(key: Key, value: Value)
    | ForeignDelete(key: Key)
    | Remove(key: Key)
    | Clear
    | DropRetired(ref: Ref)
    | Begin(id: OpId, ctx: Ctx, call: Call)
    | Reject(id: OpId)
    | Hit(id: OpId)
    | Miss(id: OpId)
    | Submit(id: OpId)
    | ServeGet(id: OpId)
    | ServePut(id: OpId)
    | GotValue(id: OpId, reply: HttpReply, loc: Loc)
    | GotStored(id: OpId, reply: HttpReply, loc: Loc)
    | GotFailure(id: OpId, reply: HttpReply)
    | Finish(id: OpId)
    | Release(id: OpId)
    | Destroy

  // ------------------------------------------------------------------ calls

  /** A call with a null or undecodable argument. */
  predicate Malformed(call: Call) {
    !call.key.Text? || (call.Set? && !call.value.Text?)
  }

  /** The key of a call whose arguments all decode. */
  function KeyOf(call: Call): (k: Option<Key>)
    ensures if Malformed(call) then k == None else call.key == Text(k.GetOr(""))
  {
    match call
    case Get(key) => Decode(key)
    case Set(key, value) => if Decode(value).None? then None else Decode(key)
  }

  predicate Pending(op: Op) {
    !op.phase.Finished?
  }

  predicate PendingOn(s: State, id: OpId, k: Key) {
    id in s.ops && Pending(s.ops[id]) && KeyOf(s.ops[id].call) == Some(k)
  }

  /** A request whose task has been spawned and not yet ended. */
  predicate Spawned(op: Op) {
    op.asked && Pending(op)
  }

  /** The error code that a reply turns into, if it does. */
  function FailureOf(call: Call, reply: HttpReply): Option<ErrorCode> {
    if call.Get? then
      var r := GetOutcome(reply);
      if r.Ok? then None else Some(r.code)
    else SetOutcome(reply)
  }

  /** What may arrive for a call: the server's own reply, once it has answered, or a broken one. */
  predicate MayArrive(op: Op, reply: HttpReply) {
    || op.reply == Some(reply)
    || (if op.call.Get? then BrokenGet(reply) else BrokenSet(reply))
  }

  function ResultOf(answer: Answer): GetResult {
    match answer
    case Found(ref) => GetResult(Success, Some(ref), Some(ref))
    case Stored => GetResult(Success, None, None)
    case Failed(code) => GetResult(code, None, None)
  }

  // ------------------------------------------------------------------ strings and cache

  function Retain(h: Heap, l: Loc): Heap {
    if l in h then h[l := Cell(h[l].text, h[l].strong + 1)] else h
  }

  function Drop(h: Heap, l: Loc): Heap {
    if l !in h then h
    else if h[l].strong <= 1 then h - {l}
    else h[l := Cell(h[l].text, h[l].strong - 1)]
  }

  function Held(cache: map<Key, Entry>, k: Key): multiset<Ref> {
    if k in cache then multiset{cache[k].ref} else multiset{}
  }

  /** What the cache holds, to a caller who only reads. */
  function Texts(cache: map<Key, Entry>): map<Key, Value> {
    map k | k in cache :: cache[k].ref.text
  }

  lemma TextsFollow(cache: map<Key, Entry>, k: Key, e: Entry)
    ensures Texts(cache[k := e]) == Texts(cache)[k := e.ref.text] && Texts(cache - {k}) == Texts(cache) - {k}
    ensures (cache - {k})[k := e] == cache[k := e] && (k !in cache ==> cache - {k} == cache)
  {
  }

  function EntryRefs(e: Entry): multiset<Ref> {
    multiset{e.ref}
  }

  predicate Fresh(s: State, k: Key) {
    k in s.cache && s.now < s.cache[k].born + s.cfg.ttl
  }

  /** A synchronous client owns its cache; an asynchronous one shares it with its tasks. */
  predicate Alive(cfg: Config, box: bool, clones: nat) {
    if cfg.async then clones > 0 else box
  }

  predicate StoreAlive(s: State) {
    Alive(s.cfg, s.box, s.clones)
  }

  // ------------------------------------------------------------------ the steps

  predicate Enabled(s: State, step: Step) {
    match step
    case Tick | ForeignPut(_, _) | ForeignDelete(_) | Remove(_) => true
    case Clear => s.box
    case DropRetired(ref) => ref in s.retired
    case Begin(id, ctx, call) => id !in s.ops && s.box && (s.cfg.async ==> ctx !in s.ctxs)
    case Reject(id) => Entering(s, id) && KeyOf(s.ops[id].call).None?
    case Hit(id) => Looking(s, id) && Fresh(s, KeyOf(s.ops[id].call).value)
    case Miss(id) => Looking(s, id) && !Fresh(s, KeyOf(s.ops[id].call).value)
    case Submit(id) => Entering(s, id) && s.ops[id].call.Set? && KeyOf(s.ops[id].call).Some?
    case ServeGet(id) => AwaitingReply(s, id) && s.ops[id].call.Get? && s.ops[id].reply.None?
    case ServePut(id) => CanServePut(s, id)
    case GotValue(id, reply, loc) =>
      AwaitingReply(s, id) && s.ops[id].call.Get? && MayArrive(s.ops[id], reply) &&
      GetOutcome(reply).Ok? && loc !in s.heap
    case GotStored(id, reply, loc) =>
      AwaitingReply(s, id) && s.ops[id].call.Set? && MayArrive(s.ops[id], reply) &&
      SetOutcome(reply).None? && loc !in s.heap
    case GotFailure(id, reply) =>
      AwaitingReply(s, id) && MayArrive(s.ops[id], reply) && FailureOf(s.ops[id].call, reply).Some?
    case Finish(id) => id in s.ops && s.ops[id].phase.Returning?
    case Release(id) => id in s.results
    case Destroy => s.box && forall id :: id in s.ops ==> !UsesBox(s.cfg, s.ops[id])
  }

  predicate Entering(s: State, id: OpId) {
    id in s.ops && s.ops[id].phase.Entered?
  }

  predicate Looking(s: State, id: OpId) {
    Entering(s, id) && s.ops[id].call.Get? && KeyOf(s.ops[id].call).Some?
  }

  predicate AwaitingReply(s: State, id: OpId) {
    id in s.ops && s.ops[id].phase.Sending? && KeyOf(s.ops[id].call).Some?
  }

  /** A PUT is applied at most once, perhaps after its caller has given up on it but not yet returned. */
  predicate CanServePut(s: State, id: OpId) {
    && id in s.ops && s.ops[id].call.Set? && KeyOf(s.ops[id].call).Some?
    && s.ops[id].asked && s.ops[id].reply.None? && Pending(s.ops[id])
  }

  /** The calls that will still dereference the client pointer; the caller must not destroy it under them. */
  predicate UsesBox(cfg: Config, op: Op) {
    if cfg.async then op.phase.Entered? else Pending(op)
  }

  ghost function Apply(s: State, step: Step): State
    requires Enabled(s, step)
  {
    match step
    case Tick => s.(now := s.now + 1)
    case ForeignPut(key, value) => s.(history := Write(s.history, key, Some(value), s.now))
    case ForeignDelete(key) => DoForeignDelete(s, key)
    case Remove(key) => DoRemove(s, key)
    case Clear => DoClear(s)
    case DropRetired(ref) => DoDropRetired(s, ref)
    case Begin(id, ctx, call) => DoBegin(s, id, ctx, call)
    case Reject(id) => DoReject(s, id)
    case Hit(id) => DoHit(s, id)
    case Miss(id) => DoMiss(s, id)
    case Submit(id) => DoSubmit(s, id)
    case ServeGet(id) => DoServeGet(s, id)
    case ServePut(id) => DoServePut(s, id)
    case GotValue(id, reply, loc) => DoGotValue(s, id, reply, loc)
    case GotStored(id, reply, loc) => DoGotStored(s, id, reply, loc)
    case GotFailure(id, reply) => DoGotFailure(s, id, reply)
    case Finish(id) => DoFinish(s, id)
    case Release(id) => DoRelease(s, id)
    case Destroy => DoDestroy(s)
  }

  function DoForeignDelete(s: State, k: Key): State {
    s.(history := if Current(s.history, k).None? then s.history else Write(s.history, k, None, s.now))
  }

  /** Eviction or expiry. */
  function DoRemove(s: State, k: Key): State {
    s.(cache := s.cache - {k}, retired := s.retired + Held(s.cache, k))
  }

  ghost function DoClear(s: State): State {
    s.(cache := map[], retired := s.retired + Bag(s.cache, EntryRefs), misuse := s.misuse || !s.box)
  }

  function DoDropRetired(s: State, ref: Ref): State {
    s.(retired := s.retired - multiset{ref},
       heap := Drop(s.heap, ref.loc),
       dangling := s.dangling || ref.loc !in s.heap)
  }

  /** The binding allocates its context, if it has one, and calls in. */
  function DoBegin(s: State, id: OpId, ctx: Ctx, call: Call): State {
    s.(ops := s.ops[id := Op(call, ctx, Entered, false, None, None, None, s.now, s.now)],
       ctxs := if s.cfg.async then s.ctxs + {ctx} else s.ctxs)
  }

  /** Null pointers and bad UTF-8 end the call before anything else is looked at. */
  function DoReject(s: State, id: OpId): State
    requires Entering(s, id)
  {
    s.(ops := s.ops[id := s.ops[id].(phase := Returning(Failed(InvalidInput)))], misuse := s.misuse || !s.box)
  }

  function DoHit(s: State, id: OpId): State
    requires Looking(s, id) && Fresh(s, KeyOf(s.ops[id].call).value)
  {
    var e := s.cache[KeyOf(s.ops[id].call).value];
    s.(ops := s.ops[id := s.ops[id].(phase := Returning(Found(e.ref)), stamp := Some(e.stamp),
                                     looked := s.now, born := e.born)],
       hits := (s.hits + 1) % WORD,
       heap := Retain(s.heap, e.ref.loc),
       dangling := s.dangling || e.ref.loc !in s.heap,
       misuse := s.misuse || !s.box)
  }

  /**
   The request goes out; an asynchronous task takes its own handle on the cache.
   An expired entry met here can never be returned again, so it leaves the cache now.
   */
  function DoMiss(s: State, id: OpId): State
    requires Looking(s, id)
  {
    var k := KeyOf(s.ops[id].call).value;
    s.(ops := s.ops[id := s.ops[id].(phase := Phase.Sending, asked := true, looked := s.now)],
       misses := (s.misses + 1) % WORD,
       cache := s.cache - {k}, retired := s.retired + Held(s.cache, k),
       clones := if s.cfg.async then s.clones + 1 else s.clones,
       misuse := s.misuse || !s.box)
  }

  function DoSubmit(s: State, id: OpId): State
    requires Entering(s, id)
  {
    s.(ops := s.ops[id := s.ops[id].(phase := Phase.Sending, asked := true, looked := s.now)],
       clones := if s.cfg.async then s.clones + 1 else s.clones,
       misuse := s.misuse || !s.box)
  }

  function DoServeGet(s: State, id: OpId): State
    requires AwaitingReply(s, id)
  {
    var k := KeyOf(s.ops[id].call).value;
    s.(ops := s.ops[id := s.ops[id].(reply := Some(GetReply(Current(s.history, k))),
                                     stamp := Some(Stamp(Latest(s.history, k), s.now)))])
  }

  function DoServePut(s: State, id: OpId): State
    requires CanServePut(s, id)
  {
    var k := KeyOf(s.ops[id].call).value;
    s.(ops := s.ops[id := s.ops[id].(reply := Some(Reply(200, None)),
                                     stamp := Some(Stamp(Latest(s.history, k) + 1, s.now)))],
       history := Write(s.history, k, Decode(s.ops[id].call.value), s.now))
  }

  /** The new Arc is shared by the cache and the result about to be returned. */
  function DoGotValue(s: State, id: OpId, reply: HttpReply, loc: Loc): State
    requires AwaitingReply(s, id) && GetOutcome(reply).Ok?
  {
    var k := KeyOf(s.ops[id].call).value;
    var ref := Ref(loc, GetOutcome(reply).value);
    s.(ops := s.ops[id := s.ops[id].(phase := Returning(Found(ref)), arrived := Some(reply))],
       heap := s.heap[loc := Cell(ref.text, 2)],
       cache := s.cache[k := Entry(ref, s.ops[id].stamp.GetOr(Stamp(0, 0)), s.now)],
       retired := s.retired + Held(s.cache, k),
       misuse := s.misuse || !StoreAlive(s))
  }

  /** The Arc that insert returns is dropped at once: only the cache holds the string. */
  function DoGotStored(s: State, id: OpId, reply: HttpReply, loc: Loc): State
    requires AwaitingReply(s, id) && s.ops[id].call.Set?
  {
    var k := KeyOf(s.ops[id].call).value;
    var ref := Ref(loc, Decode(s.ops[id].call.value).GetOr(""));
    s.(ops := s.ops[id := s.ops[id].(phase := Returning(Stored), arrived := Some(reply))],
       heap := s.heap[loc := Cell(ref.text, 1)],
       cache := s.cache[k := Entry(ref, s.ops[id].stamp.GetOr(Stamp(0, 0)), s.now)],
       retired := s.retired + Held(s.cache, k),
       misuse := s.misuse || !StoreAlive(s))
  }

  /** A failed set invalidates; a failed get leaves the cache alone. */
  function DoGotFailure(s: State, id: OpId, reply: HttpReply): State
    requires AwaitingReply(s, id) && FailureOf(s.ops[id].call, reply).Some?
  {
    var k := KeyOf(s.ops[id].call).value;
    var code := FailureOf(s.ops[id].call, reply).value;
    s.(ops := s.ops[id := s.ops[id].(phase := Returning(Failed(code)), arrived := Some(reply))],
       cache := if s.ops[id].call.Set? then s.cache - {k} else s.cache,
       retired := if s.ops[id].call.Set? then s.retired + Held(s.cache, k) else s.retired,
       misuse := s.misuse || (s.ops[id].call.Set? && !StoreAlive(s)))
  }

  // A store whose last handle is gone has no entry left: each becomes a copy yet to be dropped.

  function KeptEntries(cache: map<Key, Entry>, alive: bool): map<Key, Entry> {
    if alive then cache else map[]
  }

  ghost function LostEntries(cache: map<Key, Entry>, alive: bool): multiset<Ref> {
    if alive then multiset{} else Bag(cache, EntryRefs)
  }

  /** The handles on the store once this call is over: a task gives up its own. */
  function HandlesLeft(s: State, op: Op): nat {
    if s.cfg.async && op.asked && s.clones > 0 then s.clones - 1 else s.clones
  }

  /** The result is handed over: by return, or by the one callback, which consumes its context. */
  ghost function DoFinish(s: State, id: OpId): State
    requires id in s.ops && s.ops[id].phase.Returning?
  {
    var op := s.ops[id];
    var alive := Alive(s.cfg, s.box, HandlesLeft(s, op));
    s.(ops := s.ops[id := op.(phase := Finished(op.phase.answer))],
       results := if op.call.Get? then s.results[id := ResultOf(op.phase.answer)] else s.results,
       log := s.log + [id],
       ctxs := if s.cfg.async then s.ctxs - {op.ctx} else s.ctxs,
       clones := HandlesLeft(s, op),
       cache := KeptEntries(s.cache, alive), retired := s.retired + LostEntries(s.cache, alive),
       misuse := s.misuse || (s.cfg.async && (op.ctx !in s.ctxs || (op.asked && s.clones == 0))))
  }

  /** release_get: drops the leaked reference once, and nulls it in the caller's struct. */
  function DoRelease(s: State, id: OpId): State
    requires id in s.results
  {
    var r := s.results[id];
    if r.arc.None? then s
    else s.(results := s.results[id := r.(arc := None)],
            heap := Drop(s.heap, r.arc.value.loc),
            dangling := s.dangling || r.arc.value.loc !in s.heap)
  }

  /** The client goes, and with it its handle on the store; tasks in flight keep theirs. */
  ghost function DoDestroy(s: State): State {
    var clones := if s.clones > 0 then s.clones - 1 else 0;
    var alive := Alive(s.cfg, false, clones);
    s.(box := false, clones := clones,
       cache := KeptEntries(s.cache, alive), retired := s.retired + LostEntries(s.cache, alive),
       misuse := s.misuse || s.clones == 0)
  }

  // ------------------------------------------------------------------ runs

  /** Any server history may precede the client. */
  ghost predicate Init(s: State) {
    && s.heap == map[] && s.cache == map[] && s.retired == multiset{}
    && s.ops == map[] && s.results == map[] && s.log == [] && s.ctxs == {}
    && s.box && s.clones == 1 && s.hits == 0 && s.misses == 0
    && !s.dangling && !s.misuse
    && Chronological(s.history, s.now)
  }

  /**
   What callers and the world are assumed to keep to. Free: nothing.
   PerKey: a client's calls on one key do not overlap.
   RaceFree: nobody else writes the server, and no set overlaps another call on its key.
   PerKeyBut and RaceFreeBut: the same, except that a call may begin over another in the one way named.
   OneAtATime: each call ends before the next call or clear.
   */
  datatype Discipline =
    | Free
    | PerKey
    | PerKeyBut(overlap: Overlap)
    | RaceFree
    | RaceFreeBut(overlap: Overlap)
    | OneAtATime

  /** What begins over what is still running on its key. */
  datatype Overlap = SetOverGet | GetOverSet | SetOverSet | GetOverGet

  predicate Overlaps(overlap: Overlap, begun: Call, running: Call) {
    match overlap
    case SetOverGet => begun.Set? && running.Get?
    case GetOverSet => begun.Get? && running.Set?
    case SetOverSet => begun.Set? && running.Set?
    case GetOverGet => begun.Get? && running.Get?
  }

  ghost predicate Allowed(d: Discipline, s: State, step: Step) {
    match d
    case Free => true
    case PerKey => step.Begin? && KeyOf(step.call).Some? ==>
      forall id :: !PendingOn(s, id, KeyOf(step.call).value)
    case PerKeyBut(overlap) => step.Begin? && KeyOf(step.call).Some? ==>
      forall id :: PendingOn(s, id, KeyOf(step.call).value) ==> Overlaps(overlap, step.call, s.ops[id].call)
    case RaceFree =>
      && !step.ForeignPut? && !step.ForeignDelete?
      && (step.Begin? && KeyOf(step.call).Some? ==>
            forall id :: PendingOn(s, id, KeyOf(step.call).value) ==> step.call.Get? && s.ops[id].call.Get?)
    case RaceFreeBut(overlap) =>
      && !step.ForeignPut? && !step.ForeignDelete?
      && (step.Begin? && KeyOf(step.call).Some? ==>
            forall id :: PendingOn(s, id, KeyOf(step.call).value) ==>
              || (step.call.Get? && s.ops[id].call.Get?)
              || Overlaps(overlap, step.call, s.ops[id].call))
    case OneAtATime => step.Begin? || step.Clear? ==> forall id :: id in s.ops ==> !Pending(s.ops[id])
  }

  ghost function After(s: State, steps: seq<Step>): State
    decreases |steps|
  {
    if steps == [] then s
    else
      var n := |steps| - 1;
      var t := After(s, steps[..n]);
      if Enabled(t, steps[n]) then Apply(t, steps[n]) else t
  }

  ghost predicate Run(d: Discipline, s: State, steps: seq<Step>)
    decreases |steps|
  {
    steps == [] ||
    var n := |steps| - 1;
    && Run(d, s, steps[..n])
    && Enabled(After(s, steps[..n]), steps[n])
    && Allowed(d, After(s, steps[..n]), steps[n])
  }

  lemma Extend(d: Discipline, s: State, steps: seq<Step>, step: Step) returns (more: seq<Step>)
    requires Run(d, s, steps) && Enabled(After(s, steps), step) && Allowed(d, After(s, steps), step)
    ensures Run(d, s, more) && After(s, more) == Apply(After(s, steps), step)
    ensures more == steps + [step]
  {
    more := steps + [step];
    assert more[..|more| - 1] == steps;
  }
}
