// The key-value server (server/src/main.rs), and the versioned history that its map is the tip of.
module Versions {
  import opened Common

  /** One version of a key: a value, or None while the key is absent, in force from `since` on. */
  datatype Rec = Rec(value: Option<Value>, since: Time)

  type History = map<Key, seq<Rec>>

  /** Version 0 of every key is "absent". */
  function VersionsOf(h: History, k: Key): (r: seq<Rec>)
    ensures |r| > 0
  {
    [Rec(None, 0)] + (if k in h then h[k] else [])
  }

  function Latest(h: History, k: Key): nat {
    |VersionsOf(h, k)| - 1
  }

  function Current(h: History, k: Key): Option<Value> {
    VersionsOf(h, k)[Latest(h, k)].value
  }

  function Write(h: History, k: Key, v: Option<Value>, now: Time): History {
    h[k := (if k in h then h[k] else []) + [Rec(v, now)]]
  }

  lemma WriteAppends(h: History, k: Key, v: Option<Value>, now: Time)
    ensures VersionsOf(Write(h, k, v, now), k) == VersionsOf(h, k) + [Rec(v, now)]
    ensures forall j :: j != k ==> VersionsOf(Write(h, k, v, now), j) == VersionsOf(h, j)
  {
    var prior := if k in h then h[k] else [];
    assert [Rec(None, 0)] + (prior + [Rec(v, now)]) == [Rec(None, 0)] + prior + [Rec(v, now)];
  }

  /** The map the server holds. */
  function StoreOf(h: History): map<Key, Value> {
    map k | k in h && Current(h, k).Some? :: Current(h, k).value
  }

  lemma StoreIsCurrent(h: History, k: Key)
    ensures Current(h, k) == if k in StoreOf(h) then Some(StoreOf(h)[k]) else None
  {
  }

  lemma CurrentAfterWrite(h: History, k: Key, v: Option<Value>, now: Time, j: Key)
    ensures Current(Write(h, k, v, now), j) == if j == k then v else Current(h, j)
  {
    WriteAppends(h, k, v, now);
  }

  lemma StoreAfterWrite(h: History, k: Key, v: Option<Value>, now: Time)
    ensures StoreOf(Write(h, k, v, now)) ==
            if v.Some? then StoreOf(h)[k := v.value] else StoreOf(h) - {k}
  {
    var g := Write(h, k, v, now);
    forall j ensures j in StoreOf(g) <==> j in (if v.Some? then StoreOf(h)[k := v.value] else StoreOf(h) - {k}) {
      CurrentAfterWrite(h, k, v, now, j);
      StoreIsCurrent(g, j);
      StoreIsCurrent(h, j);
    }
    forall j | j in StoreOf(g) ensures StoreOf(g)[j] == if j == k then v.GetOr("") else StoreOf(h)[j] {
      CurrentAfterWrite(h, k, v, now, j);
    }
  }

  /** No version starts in the future, and versions are in order of time. */
  ghost predicate Chronological(h: History, now: Time) {
    forall k, i :: 0 <= i < |VersionsOf(h, k)| ==>
      && VersionsOf(h, k)[i].since <= now
      && (i > 0 ==> VersionsOf(h, k)[i - 1].since <= VersionsOf(h, k)[i].since)
  }

  lemma WriteKeepsOrder(h: History, k: Key, v: Option<Value>, now: Time)
    requires Chronological(h, now)
    ensures Chronological(Write(h, k, v, now), now)
  {
    WriteAppends(h, k, v, now);
  }
}

module Server {
  import opened Common
  import opened Http
  import opened Versions

  /** The GET answer for a key whose current value is v. */
  function GetReply(v: Option<Value>): HttpReply {
    if v.Some? then Reply(200, v) else Reply(404, None)
  }

  lemma GetReplyDecodes(v: Option<Value>)
    ensures GetOutcome(GetReply(v)) == if v.Some? then Ok(v.value) else Err(KeyNotFound)
  {
  }

  class KvServer {
    var store: map<Key, Value>
    ghost var history: History

    ghost predicate Valid()
      reads this
    {
      store == StoreOf(history)
    }

    constructor (initial: map<Key, Value>)
      ensures Valid() && store == initial
    {
      store := initial;
      history := map k | k in initial :: [Rec(Some(initial[k]), 0)];
      new;
      forall k ensures Current(history, k) == if k in initial then Some(initial[k]) else None {
      }
    }

    method GetValue(key: Key) returns (reply: HttpReply)
      requires Valid()
      ensures reply == GetReply(Current(history, key))
    {
      StoreIsCurrent(history, key);
      if key in store {
        reply := Reply(200, Some(store[key]));
      } else {
        reply := Reply(404, None);
      }
    }

    method SetValue(key: Key, value: Value, ghost now: Time) returns (reply: HttpReply)
      requires Valid()
      modifies this
      ensures Valid() && SetOutcome(reply) == None
      ensures history == Write(old(history), key, Some(value), now)
    {
      StoreAfterWrite(history, key, Some(value), now);
      store := store[key := value];
      history := Write(history, key, Some(value), now);
      reply := Reply(200, None);
    }

    /** Deleting an absent key is a 404 and makes no new version. */
    method DeleteValue(key: Key, ghost now: Time) returns (reply: HttpReply)
      requires Valid()
      modifies this
      ensures Valid()
      ensures Current(old(history), key).Some? ==>
                SetOutcome(reply) == None && history == Write(old(history), key, None, now)
      ensures Current(old(history), key).None? ==> reply == Reply(404, None) && history == old(history)
    {
      StoreIsCurrent(history, key);
      StoreAfterWrite(history, key, None, now);
      if key in store {
        store := store - {key};
        history := Write(history, key, None, now);
        reply := Reply(200, None);
      } else {
        reply := Reply(404, None);
      }
    }
  }
}
