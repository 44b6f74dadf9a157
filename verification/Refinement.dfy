// A synchronous client beside its server, as a sequence of events; and what its cache does not change.
module Refinement {
  import opened Common
  import opened Http
  import opened Server
  import opened SyncSpec

  datatype World = World(client: Client, store: map<Key, Value>)

  /** Calls with their replies; DropEvent is eviction or expiry, WriteEvent a PUT or DELETE taking effect. */
  datatype Event =
    | GetEvent(key: Raw, reply: HttpReply)
    | SetEvent(key: Raw, value: Raw, reply: HttpReply)
    | ClearEvent
    | DropEvent(entry: Key)
    | WriteEvent(entry: Key, content: Option<Value>)

  function React(w: World, e: Event): World {
    match e
    case GetEvent(key, reply) => w.(client := GetStep(w.client, key, reply).0)
    case SetEvent(key, value, reply) => w.(client := SetStep(w.client, key, value, reply).0)
    case ClearEvent => w.(client := w.client.(cache := map[]))
    case DropEvent(entry) => w.(client := w.client.(cache := w.client.cache - {entry}))
    case WriteEvent(entry, content) =>
      w.(store := if content.Some? then w.store[entry := content.value] else w.store - {entry})
  }

  function Respond(w: World, e: Event): seq<Response> {
    match e
    case GetEvent(key, reply) => [GetStep(w.client, key, reply).1]
    case SetEvent(key, value, reply) => [SetStep(w.client, key, value, reply).1]
    case _ => []
  }

  function Reacts(w: World, events: seq<Event>): World {
    if events == [] then w
    else React(Reacts(w, events[..|events| - 1]), events[|events| - 1])
  }

  function Responses(w: World, events: seq<Event>): seq<Response> {
    if events == [] then []
    else
      var before := events[..|events| - 1];
      Responses(w, before) + Respond(Reacts(w, before), events[|events| - 1])
  }

  lemma Append(w: World, events: seq<Event>, e: Event)
    ensures Reacts(w, events + [e]) == React(Reacts(w, events), e)
    ensures Responses(w, events + [e]) == Responses(w, events) + Respond(Reacts(w, events), e)
  {
    assert (events + [e])[..|events|] == events;
  }

  // ------------------------------------------------------------------ sequential sole-writer traces

  /** `fault` is a broken reply met instead of the server's own; a faulty PUT may or may not be applied. */
  datatype Action =
    | DoGet(key: Raw, fault: Option<HttpReply>)
    | DoSet(key: Raw, value: Raw, applied: bool, fault: Option<HttpReply>)
    | DoClear
    | DoDrop(entry: Key)

  predicate Possible(a: Action) {
    match a
    case DoGet(_, fault) => fault.Some? ==> BrokenGet(fault.value)
    case DoSet(_, _, applied, fault) => if fault.Some? then BrokenSet(fault.value) else applied
    case _ => true
  }

  function Lookup(store: map<Key, Value>, k: Key): Option<Value> {
    if k in store then Some(store[k]) else None
  }

  /** The events of one action in a given world: a PUT that is applied takes effect before the set returns. */
  function Events(w: World, a: Action): seq<Event> {
    match a
    case DoGet(key, fault) =>
      [GetEvent(key, fault.GetOr(GetReply(Lookup(w.store, Decode(key).GetOr("")))))]
    case DoSet(key, value, applied, fault) =>
      (if applied && Decode(key).Some? && Decode(value).Some?
       then [WriteEvent(Decode(key).value, Decode(value))] else [])
      + [SetEvent(key, value, fault.GetOr(Reply(200, None)))]
    case DoClear => [ClearEvent]
    case DoDrop(entry) => [DropEvent(entry)]
  }

  function Trace(w: World, actions: seq<Action>): seq<Event> {
    if actions == [] then []
    else
      var past := Trace(w, actions[..|actions| - 1]);
      past + Events(Reacts(w, past), actions[|actions| - 1])
  }

  // The same calls made of the server map directly, with no cache and no network faults.

  function PlainStore(store: map<Key, Value>, a: Action): map<Key, Value> {
    match a
    case DoSet(key, value, applied, _) =>
      if applied && Decode(key).Some? && Decode(value).Some?
      then store[Decode(key).value := Decode(value).value] else store
    case _ => store
  }

  function PlainAnswer(store: map<Key, Value>, a: Action): seq<Response> {
    match a
    case DoGet(key, _) =>
      if Decode(key).None? then [Error(InvalidInput)]
      else if Decode(key).value in store then [Gave(store[Decode(key).value])]
      else [Error(KeyNotFound)]
    case DoSet(key, value, _, _) =>
      if Decode(key).None? || Decode(value).None? then [Error(InvalidInput)] else [Done]
    case _ => []
  }

  function PlainStores(store: map<Key, Value>, actions: seq<Action>): map<Key, Value> {
    if actions == [] then store
    else PlainStore(PlainStores(store, actions[..|actions| - 1]), actions[|actions| - 1])
  }

  function PlainAnswers(store: map<Key, Value>, actions: seq<Action>): seq<Response> {
    if actions == [] then []
    else
      var past := actions[..|actions| - 1];
      PlainAnswers(store, past) + PlainAnswer(PlainStores(store, past), actions[|actions| - 1])
  }

  predicate Transport(r: Response) {
    r.Error? && TransportError(r.code)
  }

  ghost predicate SameAnswers(cached: seq<Response>, plain: seq<Response>) {
    && |cached| == |plain|
    && forall i :: 0 <= i < |cached| ==> Transport(cached[i]) || cached[i] == plain[i]
  }

  /** The simulation relation: whatever is cached is what the server holds. */
  predicate Subset(w: World) {
    forall k :: k in w.client.cache ==> k in w.store && w.store[k] == w.client.cache[k]
  }

  lemma GetSimulates(w: World, key: Raw, fault: Option<HttpReply>)
    requires Subset(w) && Possible(DoGet(key, fault))
    ensures
      var e := Events(w, DoGet(key, fault))[0];
      && Subset(React(w, e)) && React(w, e).store == w.store
      && SameAnswers(Respond(w, e), PlainAnswer(w.store, DoGet(key, fault)))
  {
  }

  /** From any world, a set leaves its key right in the cache or not there. */
  lemma SetSimulates(w: World, key: Raw, value: Raw, reply: HttpReply)
    requires forall k :: k in w.client.cache && Some(k) != Decode(key) ==>
      k in w.store && w.store[k] == w.client.cache[k]
    requires Decode(key).None? || Decode(value).None? ==> Subset(w)
    requires Decode(key).Some? && Decode(value).Some? && SetOutcome(reply).None? ==>
      Lookup(w.store, Decode(key).value) == Decode(value)
    ensures
      var e := SetEvent(key, value, reply);
      && Subset(React(w, e)) && React(w, e).store == w.store
      && SameAnswers(Respond(w, e), PlainAnswer(w.store, DoSet(key, value, true, None)))
  {
  }

  lemma WriteFirst(w: World, key: Raw, value: Raw, reply: HttpReply)
    requires Subset(w) && Decode(key).Some? && Decode(value).Some?
    ensures
      var u := React(w, WriteEvent(Decode(key).value, Decode(value)));
      var e := SetEvent(key, value, reply);
      && Subset(React(u, e)) && React(u, e).store == w.store[Decode(key).value := Decode(value).value]
      && SameAnswers(Respond(u, e), PlainAnswer(w.store, DoSet(key, value, true, None)))
  {
    SetSimulates(React(w, WriteEvent(Decode(key).value, Decode(value))), key, value, reply);
  }

  /** What the one or two events of an action lead to, and what it answers. */
  function Outcome(w: World, a: Action): (World, seq<Response>) {
    var more := Events(w, a);
    if |more| == 1 then (React(w, more[0]), Respond(w, more[0]))
    else (React(React(w, more[0]), more[1]), Respond(React(w, more[0]), more[1]))
  }

  /** One action, from related worlds: same answer unless the transport failed, related worlds after. */
  lemma ActionSimulates(w: World, a: Action)
    requires Subset(w) && Possible(a)
    ensures
      var (after, r) := Outcome(w, a);
      Subset(after) && after.store == PlainStore(w.store, a) && SameAnswers(r, PlainAnswer(w.store, a))
  {
    if a.DoGet? {
      GetSimulates(w, a.key, a.fault);
    } else if a.DoSet? {
      var reply := a.fault.GetOr(Reply(200, None));
      if |Events(w, a)| == 2 {
        WriteFirst(w, a.key, a.value, reply);
      } else {
        SetSimulates(w, a.key, a.value, reply);
      }
    }
  }

  lemma AppendAction(w: World, events: seq<Event>, a: Action)
    ensures
      var now := Reacts(w, events);
      var all := events + Events(now, a);
      Reacts(w, all) == Outcome(now, a).0 && Responses(w, all) == Responses(w, events) + Outcome(now, a).1
  {
    var more := Events(Reacts(w, events), a);
    Append(w, events, more[0]);
    if |more| == 1 {
      assert more == [more[0]];
    } else {
      Append(w, events + [more[0]], more[1]);
      assert events + more == events + [more[0]] + [more[1]];
      assert Respond(Reacts(w, events), more[0]) == [];
    }
  }

  /**
   Over any sequential sole-writer run of gets, sets and clears, with eviction and expiry anywhere, every
   answer that is not a transport error is the one the server map itself would give, and the map is the same.
   */
  lemma {:induction false} CacheIsTransparent(w: World, actions: seq<Action>)
    requires Subset(w) && forall i :: 0 <= i < |actions| ==> Possible(actions[i])
    ensures
      var events := Trace(w, actions);
      && Subset(Reacts(w, events))
      && Reacts(w, events).store == PlainStores(w.store, actions)
      && SameAnswers(Responses(w, events), PlainAnswers(w.store, actions))
    decreases |actions|
  {
    if actions != [] {
      var n := |actions| - 1;
      CacheIsTransparent(w, actions[..n]);
      var events := Trace(w, actions[..n]);
      ActionSimulates(Reacts(w, events), actions[n]);
      AppendAction(w, events, actions[n]);
    }
  }
}
