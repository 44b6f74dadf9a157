// A client whose calls each end before the next begins behaves like the synchronous client, call by call.
module AsyncIsSync {
  import opened Common
  import opened Http
  import opened Versions
  import opened Machine
  import opened Calls
  import opened Lifecycle
  import opened SyncSpec
  import opened Refinement

  function EventOf(call: Call, reply: HttpReply): Event {
    match call
    case Get(key) => GetEvent(key, reply)
    case Set(key, value) => SetEvent(key, value, reply)
  }

  /** A store without a handle is emptied, as if it were cleared. */
  function Closing(u: State): seq<Event> {
    if StoreAlive(u) then [] else [ClearEvent]
  }

  /** The step at which a call takes effect for a synchronous observer, and what else that observer sees. */
  ghost function Emitted(t: State, step: Step): seq<Event>
    requires Enabled(t, step)
  {
    match step
    case ForeignPut(key, value) => [WriteEvent(key, Some(value))]
    case ForeignDelete(key) => [WriteEvent(key, None)]
    case ServePut(id) => [WriteEvent(KeyOf(t.ops[id].call).value, Decode(t.ops[id].call.value))]
    case Remove(key) => [DropEvent(key)]
    case Clear => [ClearEvent]
    case Destroy => Closing(Apply(t, step))
    case Finish(_) => Closing(Apply(t, step))
    case Miss(id) => [DropEvent(KeyOf(t.ops[id].call).value)]
    case Reject(id) => [EventOf(t.ops[id].call, NoReply)]
    case Hit(id) => [EventOf(t.ops[id].call, NoReply)]
    case GotValue(id, reply, _) => [EventOf(t.ops[id].call, reply)]
    case GotStored(id, reply, _) => [EventOf(t.ops[id].call, reply)]
    case GotFailure(id, reply) => [EventOf(t.ops[id].call, reply)]
    case _ => []
  }

  ghost function Events(s: State, steps: seq<Step>): seq<Event>
    decreases |steps|
  {
    if steps == [] then []
    else
      var n := |steps| - 1;
      var t := After(s, steps[..n]);
      Events(s, steps[..n]) + if Enabled(t, steps[n]) then Emitted(t, steps[n]) else []
  }

  function Erase(a: Answer): Response {
    match a
    case Found(ref) => Gave(ref.text)
    case Stored => Done
    case Failed(code) => Error(code)
  }

  function AnswerOf(op: Op): Response {
    match op.phase
    case Returning(a) => Erase(a)
    case Finished(a) => Erase(a)
    case _ => Done
  }

  function LogAnswers(ops: map<OpId, Op>, log: seq<OpId>): seq<Response>
    requires forall id :: id in log ==> id in ops
  {
    if log == [] then []
    else LogAnswers(ops, log[..|log| - 1]) + [AnswerOf(ops[log[|log| - 1]])]
  }

  // ------------------------------------------------------------------ the relation between the two clients

  ghost predicate OnePending(t: State) {
    forall i, j :: i in t.ops && j in t.ops && Pending(t.ops[i]) && Pending(t.ops[j]) ==> i == j
  }

  ghost predicate Fetching(t: State, id: OpId) {
    id in t.ops && t.ops[id].call.Get? && t.ops[id].phase.Sending?
  }

  ghost predicate Answered(t: State, id: OpId) {
    id in t.ops && t.ops[id].phase.Returning?
  }

  /** A fetch under way is counted as a miss already, and its key is not cached. */
  ghost predicate SameClient(t: State, c: Client) {
    && c.cache == Texts(t.cache)
    && c.hits == t.hits
    && ((exists id :: Fetching(t, id)) ==> t.misses == (c.misses + 1) % WORD)
    && ((forall id :: !Fetching(t, id)) ==> t.misses == c.misses)
    && (forall id :: Fetching(t, id) ==> KeyOf(t.ops[id].call).Some? && KeyOf(t.ops[id].call).value !in t.cache)
  }

  /** The synchronous client has given every answer logged, and the one about to be returned. */
  ghost predicate SameResponses(t: State, responses: seq<Response>) {
    && (forall id :: id in t.log ==> id in t.ops)
    && (forall id :: Answered(t, id) ==> responses == LogAnswers(t.ops, t.log) + [AnswerOf(t.ops[id])])
    && ((forall id :: !Answered(t, id)) ==> responses == LogAnswers(t.ops, t.log))
  }

  ghost predicate Base(t: State) {
    AllFit(t) && LoggedOnce(t) && OnePending(t)
  }

  lemma {:induction false} SameLogAnswers(a: map<OpId, Op>, b: map<OpId, Op>, log: seq<OpId>)
    requires forall id :: id in log ==> id in a && id in b && a[id] == b[id]
    ensures LogAnswers(a, log) == LogAnswers(b, log)
    decreases |log|
  {
    if log != [] {
      SameLogAnswers(a, b, log[..|log| - 1]);
    }
  }

  // ------------------------------------------------------------------ the client, step by step

  ghost function ReactAll(w: World, events: seq<Event>): World
    requires |events| <= 1
  {
    if events == [] then w else React(w, events[0])
  }

  lemma StepKeepsOnePending(t: State, step: Step)
    requires OnePending(t) && Enabled(t, step) && Allowed(OneAtATime, t, step)
    ensures OnePending(Apply(t, step))
  {
  }

  lemma ValueKeepsClient(t: State, w: World, id: OpId, reply: HttpReply, loc: Loc)
    requires Base(t) && SameClient(t, w.client) && Enabled(t, GotValue(id, reply, loc))
    ensures SameClient(DoGotValue(t, id, reply, loc), React(w, EventOf(t.ops[id].call, reply)).client)
  {
    var u, k := DoGotValue(t, id, reply, loc), KeyOf(t.ops[id].call).value;
    assert Fetching(t, id);
    FetchedGetInserts(w.client, t.ops[id].call, reply);
    TextsFollow(t.cache, k, u.cache[k]);
    forall j ensures !Fetching(u, j) {
    }
  }

  lemma FetchedGetInserts(c: Client, call: Call, reply: HttpReply)
    requires call.Get? && KeyOf(call).Some? && KeyOf(call).value !in c.cache && GetOutcome(reply).Ok?
    ensures GetStep(c, call.key, reply).0 ==
              c.(cache := c.cache[KeyOf(call).value := GetOutcome(reply).value], misses := (c.misses + 1) % WORD)
  {
  }

  lemma StoredKeepsClient(t: State, w: World, id: OpId, reply: HttpReply, loc: Loc)
    requires Base(t) && SameClient(t, w.client) && Enabled(t, GotStored(id, reply, loc))
    ensures SameClient(DoGotStored(t, id, reply, loc), React(w, EventOf(t.ops[id].call, reply)).client)
  {
    var u, k := DoGotStored(t, id, reply, loc), KeyOf(t.ops[id].call).value;
    StoredSetInserts(w.client, t.ops[id].call, reply);
    TextsFollow(t.cache, k, u.cache[k]);
    forall j ensures !Fetching(u, j) && !Fetching(t, j) {
    }
  }

  lemma StoredSetInserts(c: Client, call: Call, reply: HttpReply)
    requires call.Set? && KeyOf(call).Some? && SetOutcome(reply).None?
    ensures SetStep(c, call.key, call.value, reply).0 ==
              c.(cache := c.cache[KeyOf(call).value := Decode(call.value).value])
  {
  }

  lemma FailedGetKeepsClient(t: State, w: World, id: OpId, reply: HttpReply)
    requires Base(t) && SameClient(t, w.client) && Enabled(t, GotFailure(id, reply)) && t.ops[id].call.Get?
    ensures SameClient(DoGotFailure(t, id, reply), React(w, EventOf(t.ops[id].call, reply)).client)
  {
    var u := DoGotFailure(t, id, reply);
    assert Fetching(t, id);
    FailedGetMisses(w.client, t.ops[id].call, reply);
    forall j ensures !Fetching(u, j) {
    }
  }

  lemma FailedGetMisses(c: Client, call: Call, reply: HttpReply)
    requires call.Get? && KeyOf(call).Some? && KeyOf(call).value !in c.cache && FailureOf(call, reply).Some?
    ensures GetStep(c, call.key, reply).0 == c.(misses := (c.misses + 1) % WORD)
  {
  }

  lemma FailedSetKeepsClient(t: State, w: World, id: OpId, reply: HttpReply)
    requires Base(t) && SameClient(t, w.client) && Enabled(t, GotFailure(id, reply)) && t.ops[id].call.Set?
    ensures SameClient(DoGotFailure(t, id, reply), React(w, EventOf(t.ops[id].call, reply)).client)
  {
    var u, k := DoGotFailure(t, id, reply), KeyOf(t.ops[id].call).value;
    FailedSetRemoves(w.client, t.ops[id].call, reply);
    forall j ensures !Fetching(u, j) && !Fetching(t, j) {
    }
    assert Texts(u.cache) == w.client.cache - {k};
  }

  lemma FailedSetRemoves(c: Client, call: Call, reply: HttpReply)
    requires call.Set? && KeyOf(call).Some? && FailureOf(call, reply).Some?
    ensures SetStep(c, call.key, call.value, reply).0 == c.(cache := c.cache - {KeyOf(call).value})
  {
  }

  lemma HitKeepsClient(t: State, w: World, id: OpId)
    requires Base(t) && SameClient(t, w.client) && Enabled(t, Hit(id))
    ensures SameClient(DoHit(t, id), React(w, EventOf(t.ops[id].call, NoReply)).client)
  {
    assert forall j :: !Fetching(t, j) && !Fetching(DoHit(t, id), j);
  }

  lemma RejectKeepsClient(t: State, w: World, id: OpId)
    requires Base(t) && SameClient(t, w.client) && Enabled(t, Reject(id))
    ensures SameClient(DoReject(t, id), React(w, EventOf(t.ops[id].call, NoReply)).client)
  {
    assert React(w, EventOf(t.ops[id].call, NoReply)).client == w.client;
    OneCallSameClient(t, DoReject(t, id), id, w.client);
  }

  lemma MissKeepsClient(t: State, w: World, id: OpId)
    requires Base(t) && SameClient(t, w.client) && Enabled(t, Miss(id))
    ensures SameClient(DoMiss(t, id), React(w, DropEvent(KeyOf(t.ops[id].call).value)).client)
  {
    var u := DoMiss(t, id);
    assert forall j :: !Fetching(t, j);
    assert Fetching(u, id);
    assert Texts(u.cache) == React(w, DropEvent(KeyOf(t.ops[id].call).value)).client.cache;
  }

  /** The cache loses entries. */
  lemma RemovalKeepsClient(t: State, w: World, step: Step)
    requires SameClient(t, w.client) && Enabled(t, step) && Allowed(OneAtATime, t, step)
    requires step.Remove? || step.Clear?
    ensures SameClient(Apply(t, step), ReactAll(w, Emitted(t, step)).client)
  {
    var u := Apply(t, step);
    forall id ensures Fetching(u, id) <==> Fetching(t, id) {
    }
    assert Texts(u.cache) == ReactAll(w, Emitted(t, step)).client.cache;
  }

  lemma SameCallsSameClient(t: State, u: State, c: Client)
    requires SameClient(t, c) && u.ops == t.ops && u.cache == t.cache && u.hits == t.hits && u.misses == t.misses
    ensures SameClient(u, c)
  {
    forall id ensures Fetching(u, id) <==> Fetching(t, id) {
    }
  }

  lemma OneCallSameClient(t: State, u: State, id: OpId, c: Client)
    requires SameClient(t, c) && u.cache == t.cache && u.hits == t.hits && u.misses == t.misses
    requires id in u.ops && u.ops == t.ops[id := u.ops[id]]
    requires Fetching(u, id) <==> Fetching(t, id)
    requires Fetching(u, id) ==> u.ops[id].call == t.ops[id].call
    ensures SameClient(u, c)
  {
    forall j ensures Fetching(u, j) <==> Fetching(t, j) {
    }
  }

  /** Calls begin, ask and are served; the cache and counters stay. */
  lemma ServiceKeepsClient(t: State, w: World, step: Step)
    requires Base(t) && SameClient(t, w.client) && Enabled(t, step)
    requires step.Begin? || step.Submit? || IsServed(step)
    ensures SameClient(Apply(t, step), ReactAll(w, Emitted(t, step)).client)
  {
    var u := Apply(t, step);
    assert ReactAll(w, Emitted(t, step)).client == w.client;
    OneCallSameClient(t, u, step.id, w.client);
  }

  /** A call ends, or the client is destroyed: the store lives on or is emptied. */
  lemma ClosingKeepsClient(t: State, w: World, step: Step)
    requires Base(t) && SameClient(t, w.client) && Enabled(t, step) && (step.Finish? || step.Destroy?)
    ensures SameClient(Apply(t, step), ReactAll(w, Emitted(t, step)).client)
  {
    var u := Apply(t, step);
    forall id ensures Fetching(u, id) <==> Fetching(t, id) {
    }
    ClosedSameClient(t, u, w);
  }

  lemma ClosedSameClient(t: State, u: State, w: World)
    requires SameClient(t, w.client) && u.hits == t.hits && u.misses == t.misses
    requires u.cache == KeptEntries(t.cache, StoreAlive(u))
    requires forall id :: Fetching(u, id) <==> Fetching(t, id)
    requires forall id :: Fetching(u, id) ==> u.ops[id].call == t.ops[id].call
    ensures SameClient(u, ReactAll(w, Closing(u)).client)
  {
    assert Texts(map[]) == map[];
  }

  lemma ForeignKeepsClient(t: State, w: World, step: Step)
    requires SameClient(t, w.client) && Enabled(t, step) && (step.ForeignPut? || step.ForeignDelete?)
    ensures SameClient(Apply(t, step), ReactAll(w, Emitted(t, step)).client)
  {
    SameCallsSameClient(t, Apply(t, step), w.client);
  }

  /** Time passes, copies are dropped. */
  lemma UnseenKeepsClient(t: State, w: World, step: Step)
    requires SameClient(t, w.client) && Enabled(t, step) && (step.Tick? || step.DropRetired?)
    ensures SameClient(Apply(t, step), ReactAll(w, Emitted(t, step)).client)
  {
    SameCallsSameClient(t, Apply(t, step), w.client);
  }

  lemma ReleaseKeepsClient(t: State, w: World, id: OpId)
    requires SameClient(t, w.client) && Enabled(t, Release(id))
    ensures SameClient(DoRelease(t, id), w.client)
  {
    SameCallsSameClient(t, DoRelease(t, id), w.client);
  }

  lemma StepKeepsClient(t: State, w: World, step: Step)
    requires Base(t) && SameClient(t, w.client) && Enabled(t, step) && Allowed(OneAtATime, t, step)
    ensures SameClient(Apply(t, step), ReactAll(w, Emitted(t, step)).client)
  {
    if step.GotValue? {
      ValueKeepsClient(t, w, step.id, step.reply, step.loc);
    } else if step.GotStored? {
      StoredKeepsClient(t, w, step.id, step.reply, step.loc);
    } else if step.GotFailure? {
      if t.ops[step.id].call.Get? {
        FailedGetKeepsClient(t, w, step.id, step.reply);
      } else {
        FailedSetKeepsClient(t, w, step.id, step.reply);
      }
    } else if step.Miss? {
      MissKeepsClient(t, w, step.id);
    } else if step.Hit? {
      HitKeepsClient(t, w, step.id);
    } else if step.Reject? {
      RejectKeepsClient(t, w, step.id);
    } else if step.Remove? || step.Clear? {
      RemovalKeepsClient(t, w, step);
    } else if step.Finish? || step.Destroy? {
      ClosingKeepsClient(t, w, step);
    } else if CallStep(step) || step.Begin? {
      ServiceKeepsClient(t, w, step);
    } else if step.ForeignPut? || step.ForeignDelete? {
      ForeignKeepsClient(t, w, step);
    } else if step.Release? {
      ReleaseKeepsClient(t, w, step.id);
    } else {
      UnseenKeepsClient(t, w, step);
    }
  }

  /** Both have the same server. */
  lemma WriteKeepsStore(t: State, w: World, step: Step)
    requires w.store == StoreOf(t.history) && Enabled(t, step)
    requires step.ForeignPut? || step.ForeignDelete? || step.ServePut?
    ensures ReactAll(w, Emitted(t, step)).store == StoreOf(Apply(t, step).history)
  {
    match step
    case ForeignPut(key, value) => StoreAfterWrite(t.history, key, Some(value), t.now);
    case ForeignDelete(key) =>
      StoreAfterWrite(t.history, key, None, t.now);
      StoreIsCurrent(t.history, key);
    case ServePut(id) =>
      StoreAfterWrite(t.history, KeyOf(t.ops[id].call).value, Decode(t.ops[id].call.value), t.now);
  }

  lemma StepKeepsStore(t: State, w: World, step: Step)
    requires w.store == StoreOf(t.history) && Enabled(t, step)
    ensures ReactAll(w, Emitted(t, step)).store == StoreOf(Apply(t, step).history)
  {
    if step.ForeignPut? || step.ForeignDelete? || step.ServePut? {
      WriteKeepsStore(t, w, step);
    } else {
      NoWriteKeepsHistory(t, step);
      NoWriteKeepsStore(t, w, step);
    }
  }

  lemma NoWriteKeepsStore(t: State, w: World, step: Step)
    requires Enabled(t, step) && !step.ForeignPut? && !step.ForeignDelete? && !step.ServePut?
    ensures ReactAll(w, Emitted(t, step)).store == w.store
  {
  }

  lemma NoWriteKeepsHistory(t: State, step: Step)
    requires Enabled(t, step) && !step.ForeignPut? && !step.ForeignDelete? && !step.ServePut?
    ensures Apply(t, step).history == t.history
  {
    if CallStep(step) {
      CallKeepsHistory(t, step, Apply(t, step));
    } else {
      OtherKeepsHistory(t, step, Apply(t, step));
    }
  }

  lemma CallKeepsHistory(t: State, step: Step, u: State)
    requires Enabled(t, step) && CallStep(step) && !step.ServePut? && u == Apply(t, step)
    ensures u.history == t.history
  {
  }

  lemma OtherKeepsHistory(t: State, step: Step, u: State)
    requires Enabled(t, step) && !CallStep(step) && !step.ForeignPut? && !step.ForeignDelete? && u == Apply(t, step)
    ensures u.history == t.history
  {
  }

  // ------------------------------------------------------------------ the answers, step by step

  predicate Answers(step: Step) {
    step.Reject? || step.Hit? || step.GotValue? || step.GotStored? || step.GotFailure?
  }

  /** The synchronous client gives, at its one event, the answer that this call is about to return. */
  lemma SameAnswer(t: State, w: World, step: Step)
    requires Base(t) && SameClient(t, w.client) && Enabled(t, step) && Answers(step)
    ensures
      var u := Apply(t, step);
      Answered(u, step.id) && Respond(w, Emitted(t, step)[0]) == [AnswerOf(u.ops[step.id])]
  {
    match step
    case Reject(id) => RejectSameAnswer(t, w, id);
    case Hit(id) => HitSameAnswer(t, w, id);
    case GotValue(id, reply, loc) => ValueSameAnswer(t, w, id, reply, loc);
    case GotStored(id, reply, loc) => StoredSameAnswer(t, w, id, reply, loc);
    case GotFailure(id, reply) => FailureSameAnswer(t, w, id, reply);
  }

  lemma RejectSameAnswer(t: State, w: World, id: OpId)
    requires Enabled(t, Reject(id))
    ensures Respond(w, EventOf(t.ops[id].call, NoReply)) == [AnswerOf(DoReject(t, id).ops[id])]
  {
  }

  lemma HitSameAnswer(t: State, w: World, id: OpId)
    requires SameClient(t, w.client) && Enabled(t, Hit(id))
    ensures Respond(w, EventOf(t.ops[id].call, NoReply)) == [AnswerOf(DoHit(t, id).ops[id])]
  {
  }

  lemma ValueSameAnswer(t: State, w: World, id: OpId, reply: HttpReply, loc: Loc)
    requires SameClient(t, w.client) && Enabled(t, GotValue(id, reply, loc))
    ensures Respond(w, EventOf(t.ops[id].call, reply)) == [AnswerOf(DoGotValue(t, id, reply, loc).ops[id])]
  {
    assert Fetching(t, id);
  }

  lemma StoredSameAnswer(t: State, w: World, id: OpId, reply: HttpReply, loc: Loc)
    requires Enabled(t, GotStored(id, reply, loc))
    ensures Respond(w, EventOf(t.ops[id].call, reply)) == [AnswerOf(DoGotStored(t, id, reply, loc).ops[id])]
  {
  }

  lemma FailureSameAnswer(t: State, w: World, id: OpId, reply: HttpReply)
    requires Base(t) && SameClient(t, w.client) && Enabled(t, GotFailure(id, reply))
    ensures Respond(w, EventOf(t.ops[id].call, reply)) == [AnswerOf(DoGotFailure(t, id, reply).ops[id])]
  {
    FailureAnswer(t, id, reply);
    if t.ops[id].call.Get? {
      assert Fetching(t, id);
      FailedGetAnswers(w, t.ops[id].call, reply);
    } else {
      FailedSetAnswers(w, t.ops[id].call, reply);
    }
  }

  lemma FailureAnswer(t: State, id: OpId, reply: HttpReply)
    requires Enabled(t, GotFailure(id, reply))
    ensures AnswerOf(DoGotFailure(t, id, reply).ops[id]) == Error(FailureOf(t.ops[id].call, reply).value)
  {
  }

  lemma FailedGetAnswers(w: World, call: Call, reply: HttpReply)
    requires call.Get? && KeyOf(call).Some? && KeyOf(call).value !in w.client.cache && FailureOf(call, reply).Some?
    ensures Respond(w, EventOf(call, reply)) == [Error(FailureOf(call, reply).value)]
  {
  }

  lemma FailedSetAnswers(w: World, call: Call, reply: HttpReply)
    requires call.Set? && KeyOf(call).Some? && FailureOf(call, reply).Some?
    ensures Respond(w, EventOf(call, reply)) == [Error(FailureOf(call, reply).value)]
  {
  }

  lemma AnswerAppears(t: State, u: State, id: OpId, responses: seq<Response>)
    requires Base(t) && SameResponses(t, responses) && id in t.ops && Pending(t.ops[id]) && !Answered(t, id)
    requires u.log == t.log && Answered(u, id) && u.ops == t.ops[id := u.ops[id]]
    ensures SameResponses(u, responses + [AnswerOf(u.ops[id])])
  {
    SameLogAnswers(t.ops, u.ops, t.log);
    forall j ensures !Answered(t, j) && (Answered(u, j) ==> j == id) {
    }
  }

  lemma NoAnswerAppears(t: State, u: State, responses: seq<Response>)
    requires Base(t) && SameResponses(t, responses) && u.log == t.log
    requires forall id :: id in t.log ==> id in u.ops && u.ops[id] == t.ops[id]
    requires forall id :: Answered(u, id) <==> Answered(t, id)
    requires forall id :: Answered(u, id) ==> AnswerOf(u.ops[id]) == AnswerOf(t.ops[id])
    ensures SameResponses(u, responses)
  {
    SameLogAnswers(t.ops, u.ops, t.log);
  }

  lemma SilentCallKeepsResponses(t: State, step: Step, responses: seq<Response>)
    requires Base(t) && SameResponses(t, responses) && Enabled(t, step)
    requires step.Begin? || step.Miss? || step.Submit? || step.ServeGet? || step.ServePut?
    ensures SameResponses(Apply(t, step), responses)
  {
    OneCallNoAnswer(t, Apply(t, step), step.id, responses);
  }

  lemma OneCallNoAnswer(t: State, u: State, id: OpId, responses: seq<Response>)
    requires Base(t) && SameResponses(t, responses) && u.log == t.log
    requires id in u.ops && u.ops == t.ops[id := u.ops[id]] && (id in t.ops ==> Pending(t.ops[id]))
    requires Answered(u, id) <==> Answered(t, id)
    requires Answered(u, id) ==> u.ops[id].phase == t.ops[id].phase
    ensures SameResponses(u, responses)
  {
    assert id !in t.log;
    NoAnswerAppears(t, u, responses);
  }

  lemma SilentStepKeepsResponses(t: State, step: Step, responses: seq<Response>)
    requires Base(t) && SameResponses(t, responses) && Enabled(t, step) && !Answers(step) && !step.Finish?
    ensures SameResponses(Apply(t, step), responses)
  {
    if CallStep(step) || step.Begin? {
      SilentCallKeepsResponses(t, step, responses);
    } else {
      WorldStepKeepsResponses(t, step, responses);
    }
  }

  lemma WorldStepKeepsResponses(t: State, step: Step, responses: seq<Response>)
    requires Base(t) && SameResponses(t, responses) && Enabled(t, step) && !CallStep(step) && !step.Begin?
    ensures SameResponses(Apply(t, step), responses)
  {
    OtherStepKeepsCalls(t, step, Apply(t, step));
    SameCallsSameResponses(t, Apply(t, step), responses);
  }

  lemma SameCallsSameResponses(t: State, u: State, responses: seq<Response>)
    requires Base(t) && SameResponses(t, responses) && u.ops == t.ops && u.log == t.log
    ensures SameResponses(u, responses)
  {
    NoAnswerAppears(t, u, responses);
  }

  lemma SilentEvents(t: State, w: World, step: Step)
    requires Enabled(t, step) && !Answers(step) && Emitted(t, step) != []
    ensures Respond(w, Emitted(t, step)[0]) == []
  {
  }

  lemma AnswerStepKeepsResponses(t: State, w: World, step: Step, responses: seq<Response>)
    requires Base(t) && SameResponses(t, responses) && Enabled(t, step) && Answers(step)
    ensures SameResponses(Apply(t, step), responses + [AnswerOf(Apply(t, step).ops[step.id])])
  {
    AnswerAppears(t, Apply(t, step), step.id, responses);
  }

  lemma FinishKeepsResponses(t: State, id: OpId, responses: seq<Response>)
    requires Base(t) && SameResponses(t, responses) && Answered(t, id)
    ensures SameResponses(DoFinish(t, id), responses)
  {
    var u := DoFinish(t, id);
    SameLogAnswers(t.ops, u.ops, t.log);
    assert u.log[..|u.log| - 1] == t.log;
    forall j ensures !Answered(u, j) {
    }
  }

  // ------------------------------------------------------------------ whole runs

  ghost predicate SameWorld(t: State, w: World, responses: seq<Response>) {
    Base(t) && SameClient(t, w.client) && SameResponses(t, responses) && w.store == StoreOf(t.history)
  }

  function RespondAll(w: World, events: seq<Event>): seq<Response> {
    if events == [] then [] else Respond(w, events[0])
  }

  lemma StepKeepsResponses(t: State, w: World, responses: seq<Response>, step: Step)
    requires Base(t) && SameClient(t, w.client) && SameResponses(t, responses) && Enabled(t, step)
    ensures SameResponses(Apply(t, step), responses + RespondAll(w, Emitted(t, step)))
  {
    if Answers(step) {
      SameAnswer(t, w, step);
      AnswerStepKeepsResponses(t, w, step, responses);
    } else {
      if Emitted(t, step) != [] {
        SilentEvents(t, w, step);
      }
      assert responses + RespondAll(w, Emitted(t, step)) == responses;
      if step.Finish? {
        FinishKeepsResponses(t, step.id, responses);
      } else {
        SilentStepKeepsResponses(t, step, responses);
      }
    }
  }

  lemma StepSimulates(t: State, w: World, responses: seq<Response>, step: Step)
    requires SameWorld(t, w, responses) && Enabled(t, step) && Allowed(OneAtATime, t, step)
    ensures
      var more := Emitted(t, step);
      SameWorld(Apply(t, step), ReactAll(w, more), responses + RespondAll(w, more))
  {
    StepKeepsFit(t, step);
    StepLogsOnce(t, step);
    StepKeepsOnePending(t, step);
    StepKeepsClient(t, w, step);
    StepKeepsStore(t, w, step);
    StepKeepsResponses(t, w, responses, step);
  }

  function NewWorld(h: History): World {
    World(Client(map[], 0, 0), StoreOf(h))
  }

  /** At every moment of a run, the synchronous client fed the same calls and replies is in the same state. */
  lemma {:induction false} RunSimulates(s: State, steps: seq<Step>)
    requires Init(s) && Run(OneAtATime, s, steps)
    ensures
      var w, events := NewWorld(s.history), Events(s, steps);
      SameWorld(After(s, steps), Reacts(w, events), Responses(w, events))
    decreases |steps|
  {
    if steps != [] {
      var n := |steps| - 1;
      RunSimulates(s, steps[..n]);
      var w, before := NewWorld(s.history), Events(s, steps[..n]);
      var more := Emitted(After(s, steps[..n]), steps[n]);
      StepSimulates(After(s, steps[..n]), Reacts(w, before), Responses(w, before), steps[n]);
      if more == [] {
        assert before + more == before;
        assert Responses(w, before) + [] == Responses(w, before);
      } else {
        assert more == [more[0]];
        Append(w, before, more[0]);
      }
    }
  }

  /** The synchronous client, fed these events, has given the answers logged and is left in the same world. */
  ghost predicate SameOutcome(t: State, w: World, events: seq<Event>) {
    && (forall id :: id in t.log ==> id in t.ops)
    && Responses(w, events) == LogAnswers(t.ops, t.log)
    && Reacts(w, events) == World(Client(Texts(t.cache), t.hits, t.misses), StoreOf(t.history))
  }

  /**
   When each call's callback runs before the next call begins, the asynchronous client gives the answers of
   the synchronous one in the same order, and ends with the same cache, counters and server map.
   */
  lemma {:induction false} AsyncSimulatesSync(s: State, steps: seq<Step>)
    requires Init(s) && Run(OneAtATime, s, steps)
    requires forall id :: id in After(s, steps).ops ==> !Pending(After(s, steps).ops[id])
    ensures SameOutcome(After(s, steps), NewWorld(s.history), Events(s, steps))
  {
    RunSimulates(s, steps);
    var t := After(s, steps);
    assert forall id :: !Fetching(t, id) && !Answered(t, id);
  }
}
