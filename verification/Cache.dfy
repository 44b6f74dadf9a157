// The cache both native clients share: core-sdk/src/cache.rs over the heap of its strings.
module Cache {
  import opened Common
  import opened Bags
  import opened Machine
  import opened Ownership
  import Ffi

  // ------------------------------------------------------------------ the books of a cache

  /** What the cache holds, what it is yet to drop, and the strings behind both. */
  datatype Books = Books(entries: map<Key, Entry>, retired: multiset<Ref>, cells: Heap)

  /** Each string has as many references as the entries, the retired copies and those `owed` by others. */
  ghost predicate Balanced(b: Books, owed: multiset<Ref>) {
    && NoZombies(b.cells)
    && forall ref: Ref :: Bag(b.entries, EntryRefs)[ref] + b.retired[ref] + owed[ref] == Strong(b.cells, ref)
  }

  /** Every entry's string is allocated and reads what the entry says. */
  ghost predicate Sound(b: Books) {
    forall k :: k in b.entries ==> Strong(b.cells, b.entries[k].ref) > 0
  }

  /** A hit shares the string of an entry with the caller. */
  function Shared(b: Books, k: Key): Books
    requires k in b.entries
  {
    b.(cells := Retain(b.cells, b.entries[k].ref.loc))
  }

  function Without(b: Books, k: Key): Books {
    b.(entries := b.entries - {k}, retired := b.retired + Held(b.entries, k))
  }

  /** A new entry, whose string has n references. */
  function With(b: Books, k: Key, e: Entry, n: nat): Books {
    Books(b.entries[k := e], b.retired + Held(b.entries, k), b.cells[e.ref.loc := Cell(e.ref.text, n)])
  }

  lemma BalancedIsSound(b: Books, owed: multiset<Ref>)
    requires Balanced(b, owed)
    ensures Sound(b)
  {
    forall k | k in b.entries ensures Strong(b.cells, b.entries[k].ref) > 0 {
      BagRemove(b.entries, EntryRefs, k);
      var ref := b.entries[k].ref;
      assert Bag(b.entries, EntryRefs)[ref] + b.retired[ref] + owed[ref] == Strong(b.cells, ref);
    }
  }

  lemma ShareBalances(b: Books, owed: multiset<Ref>, k: Key)
    requires Balanced(b, owed) && k in b.entries
    ensures Balanced(Shared(b, k), owed + multiset{b.entries[k].ref})
  {
    BalancedIsSound(b, owed);
    RetainStrong(b.cells, b.entries[k].ref);
  }

  lemma RemoveBalances(b: Books, owed: multiset<Ref>, k: Key)
    requires Balanced(b, owed)
    ensures Balanced(Without(b, k), owed)
  {
    BagDelete(b.entries, EntryRefs, k);
  }

  lemma EntryCount(entries: map<Key, Entry>, k: Key, e: Entry, ref: Ref)
    ensures Bag(entries[k := e], EntryRefs)[ref] + Held(entries, k)[ref]
              == Bag(entries, EntryRefs)[ref] + One(e.ref, ref)
  {
    BagPut(entries, EntryRefs, k, e);
  }

  lemma NewStrong(cells: Heap, made: Ref, n: nat, after: Heap, ref: Ref)
    requires made.loc !in cells && after == cells[made.loc := Cell(made.text, n)]
    ensures Strong(after, ref) == Strong(cells, ref) + if made == ref then n else 0
  {
  }

  /** A new string with one reference for its entry and n - 1 for its caller. */
  lemma InsertBalances(b: Books, owed: multiset<Ref>, k: Key, e: Entry, n: nat, more: multiset<Ref>)
    requires Balanced(b, owed) && e.ref.loc !in b.cells && n > 0
    requires forall ref :: more[ref] == owed[ref] + if ref == e.ref then n - 1 else 0
    ensures Balanced(With(b, k, e, n), more)
  {
    var after := With(b, k, e, n);
    forall ref: Ref ensures
      Bag(after.entries, EntryRefs)[ref] + after.retired[ref] + more[ref] == Strong(after.cells, ref)
    {
      assert Bag(b.entries, EntryRefs)[ref] + b.retired[ref] + owed[ref] == Strong(b.cells, ref);
      EntryCount(b.entries, k, e, ref);
      NewStrong(b.cells, e.ref, n, after.cells, ref);
    }
  }

  /** Giving a reference back. */
  lemma ReleaseBalances(b: Books, owed: multiset<Ref>, ref: Ref)
    requires Balanced(b, owed) && ref in owed
    ensures ref.loc in b.cells && Balanced(b.(cells := Drop(b.cells, ref.loc)), owed - multiset{ref})
  {
    assert Bag(b.entries, EntryRefs)[ref] + b.retired[ref] + owed[ref] == Strong(b.cells, ref);
    DropStrong(b.cells, ref);
  }

  lemma ClearBalances(b: Books, owed: multiset<Ref>)
    requires Balanced(b, owed)
    ensures Balanced(Books(map[], b.retired + Bag(b.entries, EntryRefs), b.cells), owed)
  {
  }

  // ------------------------------------------------------------------ the cache in place

  /**
   KvCache: entries that expire, two counters, and one reference per entry. What leaves the map is kept in
   `retired` until the cache gets round to dropping it.
   */
  class KvCache {
    const heap: Ffi.StringHeap
    const ttl: Time
    var entries: map<Key, Entry>
    ghost var retired: multiset<Ref>
    var hits: nat
    var misses: nat

    constructor (heap: Ffi.StringHeap, ttl: Time)
      ensures this.heap == heap && this.ttl == ttl
      ensures entries == map[] && retired == multiset{} && hits == 0 && misses == 0
    {
      this.heap, this.ttl := heap, ttl;
      entries, retired, hits, misses := map[], multiset{}, 0, 0;
    }

    ghost function View(): Books
      reads this, heap
    {
      Books(entries, retired, heap.cells)
    }

    /** An entry that has not expired. */
    ghost predicate Has(key: Key, now: Time)
      reads this
    {
      key in entries && now < entries[key].born + ttl
    }

    method Invalidate(key: Key)
      modifies this`entries, this`retired
      ensures entries == old(entries) - {key} && retired == old(retired) + Held(old(entries), key)
    {
      retired := retired + Held(entries, key);
      entries := entries - {key};
    }

    /** A hit shares the string with the caller. An expired entry is a miss, and goes. */
    method Get(key: Key, now: Time) returns (cached: Option<Ref>)
      requires key in entries ==> entries[key].ref.loc in heap.cells
      modifies this, heap
      ensures cached.Some? <==> key in old(entries) && now < old(entries)[key].born + ttl
      ensures cached.Some? ==>
                && entries == old(entries) && retired == old(retired) && cached.value == entries[key].ref
                && hits == (old(hits) + 1) % 0x1_0000_0000_0000_0000 && misses == old(misses)
                && heap.cells == Retain(old(heap.cells), cached.value.loc)
      ensures cached.None? ==>
                && entries == old(entries) - {key} && retired == old(retired) + Held(old(entries), key)
                && hits == old(hits) && misses == (old(misses) + 1) % 0x1_0000_0000_0000_0000
                && heap.cells == old(heap.cells)
    {
      if key in entries && now < entries[key].born + ttl {
        heap.Clone(entries[key].ref);
        hits := (hits + 1) % WORD;
        cached := Some(entries[key].ref);
      } else {
        Invalidate(key);
        misses := (misses + 1) % WORD;
        cached := None;
      }
    }

    /** One new string, two references to it: the entry's, and the one returned. */
    method Insert(key: Key, value: Value, loc: Loc, stamp: Stamp, now: Time) returns (cached: Ref)
      requires loc !in heap.cells
      modifies this`entries, this`retired, heap
      ensures cached == Ref(loc, value) && heap.cells == old(heap.cells)[loc := Cell(value, 2)]
      ensures entries == old(entries)[key := Entry(cached, stamp, now)]
      ensures retired == old(retired) + Held(old(entries), key)
    {
      cached := heap.New(loc, value);
      heap.Clone(cached);
      retired := retired + Held(entries, key);
      entries := entries[key := Entry(cached, stamp, now)];
    }

    method Clear()
      modifies this`entries, this`retired
      ensures entries == map[] && retired == old(retired) + Bag(old(entries), EntryRefs)
    {
      retired := retired + Bag(entries, EntryRefs);
      entries := map[];
    }

    /** What becomes of the entries when a handle on the cache is dropped: gone with the last one. */
    method Release(alive: bool)
      modifies this`entries, this`retired
      ensures entries == KeptEntries(old(entries), alive) && retired == old(retired) + LostEntries(old(entries), alive)
    {
      if !alive {
        Clear();
      }
    }
  }
}
