// The C++ wrappers (bindings/cpp/include/kv_store.hpp, kv_store_async.hpp): each native handle has one owner.
module MoveOnly {
  import opened Common
  import opened Bags

  type Handle = nat

  // ------------------------------------------------------------------ what the special members do to ownership

  /** The destructor: what it gives back to the native side. */
  function Ended(owned: Option<Handle>): seq<Handle> {
    if owned.Some? then [owned.value] else []
  }

  /** The wrappers alive and what each owns, the handles the native side has issued, and those it has got back. */
  datatype Pool = Pool(slots: map<nat, Option<Handle>>, issued: set<Handle>, released: seq<Handle>)

  /** MoveAssign(x, x) is self-assignment. An Acquire of None wraps an error result, which owns nothing. */
  datatype Op =
    | Acquire(slot: nat, owned: Option<Handle>)
    | MoveConstruct(slot: nat, src: nat)
    | MoveAssign(slot: nat, src: nat)
    | Destruct(slot: nat)

  predicate Enabled(p: Pool, op: Op) {
    match op
    case Acquire(slot, owned) => slot !in p.slots && (owned.Some? ==> owned.value !in p.issued)
    case MoveConstruct(slot, src) => slot !in p.slots && src in p.slots
    case MoveAssign(slot, src) => slot in p.slots && src in p.slots
    case Destruct(slot) => slot in p.slots
  }

  function Apply(p: Pool, op: Op): Pool
    requires Enabled(p, op)
  {
    match op
    case Acquire(slot, owned) =>
      p.(slots := p.slots[slot := owned], issued := if owned.Some? then p.issued + {owned.value} else p.issued)
    case MoveConstruct(slot, src) =>
      var owned := p.slots[src];
      p.(slots := p.slots[slot := owned][src := None])
    case MoveAssign(slot, src) =>
      if slot == src then p
      else
        var owned := p.slots[src];
        p.(slots := p.slots[slot := owned][src := None], released := p.released + Ended(p.slots[slot]))
    case Destruct(slot) =>
      p.(slots := p.slots - {slot}, released := p.released + Ended(p.slots[slot]))
  }

  ghost predicate Run(p: Pool, ops: seq<Op>)
    decreases |ops|
  {
    ops == [] ||
    var n := |ops| - 1;
    Run(p, ops[..n]) && Enabled(After(p, ops[..n]), ops[n])
  }

  ghost function After(p: Pool, ops: seq<Op>): Pool
    decreases |ops|
  {
    if ops == [] then p
    else
      var n := |ops| - 1;
      var q := After(p, ops[..n]);
      if Enabled(q, ops[n]) then Apply(q, ops[n]) else q
  }

  // ------------------------------------------------------------------ unique ownership

  function Owned(o: Option<Handle>): multiset<Handle> {
    if o.Some? then multiset{o.value} else multiset{}
  }

  /** Every issued handle is either owned by exactly one wrapper or has been released exactly once. */
  ghost predicate UniquelyOwned(p: Pool) {
    forall h :: Bag(p.slots, Owned)[h] + multiset(p.released)[h] == if h in p.issued then 1 else 0
  }

  lemma ReleaseCounts(released: seq<Handle>, o: Option<Handle>, h: Handle)
    ensures multiset(released + Ended(o))[h] == multiset(released)[h] + Owned(o)[h]
  {
  }

  lemma PutCounts(slots: map<nat, Option<Handle>>, slot: nat, o: Option<Handle>, h: Handle)
    ensures
      Bag(slots[slot := o], Owned)[h] + (if slot in slots then Owned(slots[slot])[h] else 0)
        == Bag(slots, Owned)[h] + Owned(o)[h]
  {
    BagPut(slots, Owned, slot, o);
  }

  lemma EmptyCounts(slots: map<nat, Option<Handle>>, src: nat, o: Option<Handle>, h: Handle)
    requires src in slots && slots[src] == o
    ensures Bag(slots[src := None], Owned)[h] + Owned(o)[h] == Bag(slots, Owned)[h]
  {
    BagPut(slots, Owned, src, None);
    assert Owned(None)[h] == 0;
  }

  lemma MoveCounts(slots: map<nat, Option<Handle>>, slot: nat, src: nat, o: Option<Handle>,
                   after: map<nat, Option<Handle>>, h: Handle)
    requires src in slots && slot != src && o == slots[src] && after == slots[slot := o][src := None]
    ensures Bag(after, Owned)[h] + (if slot in slots then Owned(slots[slot])[h] else 0) == Bag(slots, Owned)[h]
  {
    var mid := slots[slot := o];
    PutCounts(slots, slot, o, h);
    EmptyCounts(mid, src, o, h);
    assert after == mid[src := None];
  }

  lemma StepKeepsUnique(p: Pool, op: Op)
    requires UniquelyOwned(p) && Enabled(p, op)
    ensures UniquelyOwned(Apply(p, op))
  {
    var q := Apply(p, op);
    forall h ensures Bag(q.slots, Owned)[h] + multiset(q.released)[h] == if h in q.issued then 1 else 0 {
      StepCounts(p, op, h);
      assert Bag(p.slots, Owned)[h] + multiset(p.released)[h] == if h in p.issued then 1 else 0;
    }
  }

  /** One more wherever a handle is issued, none anywhere else. */
  lemma StepCounts(p: Pool, op: Op, h: Handle)
    requires Enabled(p, op)
    ensures
      var q := Apply(p, op);
      Bag(q.slots, Owned)[h] + multiset(q.released)[h]
        == Bag(p.slots, Owned)[h] + multiset(p.released)[h] + if h in q.issued && h !in p.issued then 1 else 0
  {
    var q := Apply(p, op);
    match op
    case Acquire(slot, owned) => PutCounts(p.slots, slot, owned, h);
    case MoveConstruct(slot, src) => MoveCounts(p.slots, slot, src, p.slots[src], q.slots, h);
    case MoveAssign(slot, src) =>
      if slot != src {
        MoveCounts(p.slots, slot, src, p.slots[src], q.slots, h);
        ReleaseCounts(p.released, p.slots[slot], h);
      }
    case Destruct(slot) =>
      BagDelete(p.slots, Owned, slot);
      ReleaseCounts(p.released, p.slots[slot], h);
  }

  /** Over any sequence of gets, moves, self-assignments and destructions, over any pool of wrappers. */
  lemma {:induction false} UniqueOwnership(p: Pool, ops: seq<Op>)
    requires p == Pool(map[], {}, []) && Run(p, ops)
    ensures UniquelyOwned(After(p, ops))
    decreases |ops|
  {
    if ops != [] {
      var n := |ops| - 1;
      UniqueOwnership(p, ops[..n]);
      StepKeepsUnique(After(p, ops[..n]), ops[n]);
    }
  }

  /** Owned by two wrappers, or owned and released, is impossible; and with every wrapper gone all are released. */
  lemma {:induction false} OneOwnerThenOneRelease(p: Pool, ops: seq<Op>)
    requires p == Pool(map[], {}, []) && Run(p, ops)
    ensures
      var q := After(p, ops);
      && (forall x, y :: x in q.slots && y in q.slots && q.slots[x].Some? && q.slots[x] == q.slots[y] ==> x == y)
      && (forall x :: x in q.slots && q.slots[x].Some? ==>
            q.slots[x].value in q.issued && q.slots[x].value !in q.released)
      && (q.slots == map[] ==> multiset(q.released) == multiset(q.issued))
  {
    UniqueOwnership(p, ops);
    var q := After(p, ops);
    forall x, y | x in q.slots && y in q.slots && q.slots[x].Some? && q.slots[x] == q.slots[y]
      ensures x == y && q.slots[x].value in q.issued && q.slots[x].value !in q.released
    {
      OwnerIsUnique(q, x, y, q.slots[x].value);
    }
    if q.slots == map[] {
      NoOwnerLeft(q);
    }
  }

  lemma NoOwnerLeft(q: Pool)
    requires UniquelyOwned(q) && q.slots == map[]
    ensures multiset(q.released) == multiset(q.issued)
  {
    forall h ensures multiset(q.released)[h] == multiset(q.issued)[h] {
      assert Bag(q.slots, Owned)[h] == 0;
    }
  }

  lemma OwnerIsUnique(q: Pool, x: nat, y: nat, h: Handle)
    requires UniquelyOwned(q) && x in q.slots && y in q.slots && q.slots[x] == q.slots[y] == Some(h)
    ensures x == y && h in q.issued && h !in q.released
  {
    BagDelete(q.slots, Owned, x);
    BagDelete(q.slots - {x}, Owned, y);
    assert Bag(q.slots, Owned)[h] + multiset(q.released)[h] <= 1;
  }

  /** A handle is given back only by the end of the wrapper that owns it, or by an assignment over that wrapper. */
  lemma ReleasedOnlyByItsOwner(p: Pool, op: Op, h: Handle)
    requires Enabled(p, op) && multiset(Apply(p, op).released)[h] > multiset(p.released)[h]
    ensures (op.Destruct? || (op.MoveAssign? && op.slot != op.src)) && p.slots[op.slot] == Some(h)
  {
    if op.Destruct? || op.MoveAssign? {
      ReleaseCounts(p.released, p.slots[op.slot], h);
    }
  }
}

// The classes themselves, member by member, against the effects above.
module CppWrappers {
  import opened Common
  import opened MoveOnly

  /** The native side of a release or destroy: what has been given back to it. */
  class Native {
    var released: seq<Handle>

    constructor ()
      ensures released == []
    {
      released := [];
    }
  }

  datatype GetResult = GetResult(code: ErrorCode, arc: Option<Handle>)

  /** kv_store_release_get: gives the reference back once and nulls it. */
  method ReleaseGet(native: Native, result: GetResult) returns (after: GetResult)
    modifies native
    ensures after == result.(arc := None)
    ensures native.released == old(native.released) + Ended(result.arc)
  {
    after := result;
    if result.arc.Some? {
      native.released := native.released + [result.arc.value];
      after := result.(arc := None);
    }
  }

  /** ValueRef and AsyncValueRef: a moved-from wrapper keeps its result_ but has no client_. */
  class ValueRef {
    var client: Option<Handle>
    var result: GetResult

    ghost function Owns(): Option<Handle>
      reads this
    {
      if client.Some? then result.arc else None
    }

    constructor (client: Option<Handle>, result: GetResult)
      ensures this.client == client && this.result == result
      ensures client.Some? ==> Owns() == result.arc
    {
      this.client, this.result := client, result;
    }

    constructor MoveConstruct(other: ValueRef)
      modifies other
      ensures Owns() == old(other.Owns()) && other.Owns() == None
      ensures result == old(other.result) && other.result == old(other.result)
    {
      client, result := other.client, other.result;
      new;
      other.client := None;
    }

    method MoveAssign(native: Native, other: ValueRef)
      modifies this, other, native
      ensures this == other ==> unchanged(this) && native.released == old(native.released)
      ensures this != other ==>
                && Owns() == old(other.Owns()) && other.Owns() == None && result == old(other.result)
                && native.released == old(native.released + Ended(Owns()))
    {
      if this != other {
        if client.Some? {
          result := ReleaseGet(native, result);
        }
        client := other.client;
        result := other.result;
        other.client := None;
      }
    }

    method Destruct(native: Native)
      modifies this, native
      ensures Owns() == None && native.released == old(native.released + Ended(Owns()))
    {
      if client.Some? {
        result := ReleaseGet(native, result);
      }
    }
  }

  /** KvStoreClient and KvStoreAsyncClient: the wrapper owns the native client itself. */
  class KvStoreClient {
    var client: Option<Handle>

    /** Construction from a successful init; a null handle throws instead and leaves no wrapper. */
    constructor (handle: Handle)
      ensures client == Some(handle)
    {
      client := Some(handle);
    }

    constructor MoveConstruct(other: KvStoreClient)
      modifies other
      ensures client == old(other.client) && other.client == None
    {
      client := other.client;
      new;
      other.client := None;
    }

    method MoveAssign(native: Native, other: KvStoreClient)
      modifies this, other, native
      ensures this == other ==> unchanged(this) && native.released == old(native.released)
      ensures this != other ==>
                && client == old(other.client) && other.client == None
                && native.released == old(native.released + Ended(client))
    {
      if this != other {
        if client.Some? {
          native.released := native.released + [client.value];
        }
        client := other.client;
        other.client := None;
      }
    }

    method Destruct(native: Native)
      modifies native
      ensures native.released == old(native.released + Ended(client))
    {
      if client.Some? {
        native.released := native.released + [client.value];
      }
    }
  }
}

// A program that holds any number of wrappers in named places runs exactly the pool of MoveOnly.
module CppProgram {
  import opened Common
  import opened MoveOnly
  import opened CppWrappers

  class Program {
    var refs: map<nat, ValueRef>
    const native: Native
    ghost var issued: set<Handle>

    constructor ()
      ensures Valid() && View() == Pool(map[], {}, [])
    {
      refs, issued := map[], {};
      native := new Native();
    }

    ghost predicate Valid()
      reads this
    {
      forall i, j :: i in refs && j in refs && refs[i] == refs[j] ==> i == j
    }

    ghost function Objects(): set<object>
      reads this
    {
      set i | i in refs :: refs[i]
    }

    ghost function View(): Pool
      reads this, native, Objects()
    {
      Pool(map i | i in refs :: refs[i].Owns(), issued, native.released)
    }

    method Acquire(slot: nat, client: Handle, result: GetResult)
      requires Valid() && Enabled(View(), Op.Acquire(slot, result.arc))
      modifies this
      ensures Valid() && View() == Apply(old(View()), Op.Acquire(slot, result.arc))
    {
      var ref := new ValueRef(Some(client), result);
      refs := refs[slot := ref];
      if result.arc.Some? {
        issued := issued + {result.arc.value};
      }
    }

    method MoveConstruct(slot: nat, src: nat)
      requires Valid() && Enabled(View(), Op.MoveConstruct(slot, src))
      modifies this, Objects()
      ensures Valid() && View() == Apply(old(View()), Op.MoveConstruct(slot, src))
    {
      var ref := new ValueRef.MoveConstruct(refs[src]);
      refs := refs[slot := ref];
    }

    method MoveAssign(slot: nat, src: nat)
      requires Valid() && Enabled(View(), Op.MoveAssign(slot, src))
      modifies Objects(), native
      ensures Valid() && View() == Apply(old(View()), Op.MoveAssign(slot, src))
    {
      refs[slot].MoveAssign(native, refs[src]);
    }

    method Destruct(slot: nat)
      requires Valid() && Enabled(View(), Op.Destruct(slot))
      modifies this, Objects(), native
      ensures Valid() && View() == Apply(old(View()), Op.Destruct(slot))
    {
      refs[slot].Destruct(native);
      refs := refs - {slot};
    }
  }

  /** The same for the client wrappers, whose construction may fail and leave no wrapper at all. */
  class Clients {
    var wrappers: map<nat, KvStoreClient>
    const native: Native
    ghost var issued: set<Handle>

    constructor ()
      ensures Valid() && View() == Pool(map[], {}, [])
    {
      wrappers, issued := map[], {};
      native := new Native();
    }

    ghost predicate Valid()
      reads this
    {
      forall i, j :: i in wrappers && j in wrappers && wrappers[i] == wrappers[j] ==> i == j
    }

    ghost function Objects(): set<object>
      reads this
    {
      set i | i in wrappers :: wrappers[i]
    }

    ghost function View(): Pool
      reads this, native, Objects()
    {
      Pool(map i | i in wrappers :: wrappers[i].client, issued, native.released)
    }

    /** `handle` is what init returned; None is a null pointer, for which the constructor throws. */
    method Construct(slot: nat, handle: Option<Handle>) returns (thrown: bool)
      requires Valid() && Enabled(View(), Op.Acquire(slot, handle))
      modifies this
      ensures Valid() && thrown == handle.None?
      ensures View() == if thrown then old(View()) else Apply(old(View()), Op.Acquire(slot, handle))
    {
      thrown := handle.None?;
      if !thrown {
        var wrapper := new KvStoreClient(handle.value);
        wrappers := wrappers[slot := wrapper];
        issued := issued + {handle.value};
      }
    }

    method MoveConstruct(slot: nat, src: nat)
      requires Valid() && Enabled(View(), Op.MoveConstruct(slot, src))
      modifies this, Objects()
      ensures Valid() && View() == Apply(old(View()), Op.MoveConstruct(slot, src))
    {
      var wrapper := new KvStoreClient.MoveConstruct(wrappers[src]);
      wrappers := wrappers[slot := wrapper];
    }

    method MoveAssign(slot: nat, src: nat)
      requires Valid() && Enabled(View(), Op.MoveAssign(slot, src))
      modifies Objects(), native
      ensures Valid() && View() == Apply(old(View()), Op.MoveAssign(slot, src))
    {
      wrappers[slot].MoveAssign(native, wrappers[src]);
    }

    method Destruct(slot: nat)
      requires Valid() && Enabled(View(), Op.Destruct(slot))
      modifies this, native
      ensures Valid() && View() == Apply(old(View()), Op.Destruct(slot))
    {
      wrappers[slot].Destruct(native);
      wrappers := wrappers - {slot};
    }
  }
}
