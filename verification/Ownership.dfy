// Every reference to a shared string is accounted for, in every interleaving.
module Ownership {
  import opened Common
  import opened Bags
  import opened Http
  import opened Machine
  import opened Calls
  import Lifecycle

  /** The reference that a call holds between finding its value and handing it over. */
  function LocalRefs(op: Op): multiset<Ref> {
    if op.phase.Returning? && op.phase.answer.Found? then multiset{op.phase.answer.ref} else multiset{}
  }

  /** The reference leaked into an unreleased result. */
  function ResultRefs(r: GetResult): multiset<Ref> {
    if r.arc.Some? then multiset{r.arc.value} else multiset{}
  }

  /** The owners of a reference: cache entries, copies yet to be dropped, calls under way, unreleased results. */
  ghost function OwnerCount(s: State, ref: Ref): nat {
    Bag(s.cache, EntryRefs)[ref] + s.retired[ref] + Bag(s.ops, LocalRefs)[ref] + Bag(s.results, ResultRefs)[ref]
  }

  /** The strong count behind a reference; none if its memory is freed or reads something else. */
  function Strong(h: Heap, ref: Ref): nat {
    if ref.loc in h && h[ref.loc].text == ref.text then h[ref.loc].strong else 0
  }

  ghost predicate Counted(s: State) {
    forall ref: Ref :: OwnerCount(s, ref) == Strong(s.heap, ref)
  }

  ghost predicate NoZombies(h: Heap) {
    forall l :: l in h ==> h[l].strong > 0
  }

  /** What a result says of the answer: the string found, still owned or given back, or an error and no string. */
  predicate Tells(r: GetResult, a: Answer) {
    match a
    case Found(ref) => r.code == Success && r.value == Some(ref) && (r.arc == Some(ref) || r.arc == None)
    case Failed(code) => r == GetResult(code, None, None)
    case Stored => false
  }

  /** Conservation: the strong count of each string is the number of its owners, and no freed string was touched. */
  ghost predicate Conserved(s: State) {
    !s.dangling && Counted(s) && NoZombies(s.heap)
  }

  function One(ref: Ref, r: Ref): nat {
    if ref == r then 1 else 0
  }

  // ------------------------------------------------------------------ heap operations

  lemma DropStrong(h: Heap, ref: Ref)
    requires NoZombies(h) && Strong(h, ref) > 0
    ensures NoZombies(Drop(h, ref.loc))
    ensures forall r: Ref :: Strong(Drop(h, ref.loc), r) == Strong(h, r) - One(ref, r)
  {
  }

  lemma RetainStrong(h: Heap, ref: Ref)
    requires NoZombies(h) && Strong(h, ref) > 0
    ensures NoZombies(Retain(h, ref.loc))
    ensures forall r: Ref :: Strong(Retain(h, ref.loc), r) == Strong(h, r) + One(ref, r)
  {
  }

  // ------------------------------------------------------------------ moves between owners

  lemma RemoveEntryCount(s: State, k: Key)
    ensures forall r: Ref :: OwnerCount(DoRemove(s, k), r) == OwnerCount(s, r)
  {
    BagDelete(s.cache, EntryRefs, k);
  }

  lemma EntryOwned(s: State, k: Key)
    requires Counted(s) && k in s.cache
    ensures Strong(s.heap, s.cache[k].ref) > 0
  {
    BagRemove(s.cache, EntryRefs, k);
    assert OwnerCount(s, s.cache[k].ref) == Strong(s.heap, s.cache[k].ref);
  }

  ghost predicate EntriesAlive(s: State) {
    forall k :: k in s.cache ==> Strong(s.heap, s.cache[k].ref) > 0
  }

  /** A cache entry always denotes an allocated string, so a hit can share it. */
  lemma AllEntriesOwned(s: State)
    requires Counted(s)
    ensures EntriesAlive(s)
  {
    forall k | k in s.cache ensures Strong(s.heap, s.cache[k].ref) > 0 {
      EntryOwned(s, k);
    }
  }

  lemma ResultOwned(s: State, id: OpId)
    requires Counted(s) && id in s.results && s.results[id].arc.Some?
    ensures Strong(s.heap, s.results[id].arc.value) > 0
  {
    BagRemove(s.results, ResultRefs, id);
    assert OwnerCount(s, s.results[id].arc.value) == Strong(s.heap, s.results[id].arc.value);
  }

  // ------------------------------------------------------------------ what a step may do to the counts

  lemma SameConserves(s: State, t: State)
    requires Conserved(s) && t.heap == s.heap && !t.dangling
    requires forall r: Ref :: OwnerCount(t, r) == OwnerCount(s, r)
    ensures Conserved(t)
  {
  }

  lemma ShareConserves(s: State, t: State, ref: Ref)
    requires Conserved(s) && Strong(s.heap, ref) > 0 && t.heap == Retain(s.heap, ref.loc) && !t.dangling
    requires forall r: Ref :: OwnerCount(t, r) == OwnerCount(s, r) + One(ref, r)
    ensures Conserved(t)
  {
    RetainStrong(s.heap, ref);
  }

  lemma FreeConserves(s: State, t: State, ref: Ref)
    requires Conserved(s) && Strong(s.heap, ref) > 0 && t.heap == Drop(s.heap, ref.loc) && !t.dangling
    requires forall r: Ref :: OwnerCount(t, r) == OwnerCount(s, r) - One(ref, r)
    ensures Conserved(t)
  {
    DropStrong(s.heap, ref);
  }

  lemma AllocConserves(s: State, t: State, ref: Ref, n: nat)
    requires Conserved(s) && ref.loc !in s.heap && n > 0
    requires t.heap == s.heap[ref.loc := Cell(ref.text, n)] && !t.dangling
    requires forall r: Ref :: OwnerCount(t, r) == OwnerCount(s, r) + if r == ref then n else 0
    ensures Conserved(t)
  {
    forall r: Ref ensures OwnerCount(t, r) == Strong(t.heap, r) {
      assert OwnerCount(s, r) == Strong(s.heap, r);
    }
  }

  // ------------------------------------------------------------------ each step conserves

  lemma BeginConserves(s: State, id: OpId, ctx: Ctx, call: Call)
    requires Conserved(s) && Enabled(s, Begin(id, ctx, call))
    ensures Conserved(DoBegin(s, id, ctx, call))
  {
    var t := DoBegin(s, id, ctx, call);
    BagAdd(s.ops, LocalRefs, id, t.ops[id]);
    SameConserves(s, t);
  }

  /** A step of a call that gains and loses no reference: its own record and the cache change. */
  lemma QuietConserves(s: State, id: OpId, op: Op, t: State)
    requires Conserved(s) && id in s.ops && LocalRefs(s.ops[id]) == LocalRefs(op)
    requires t.ops == s.ops[id := op] && t.heap == s.heap && t.results == s.results && !t.dangling
    requires forall r: Ref ::
      Bag(t.cache, EntryRefs)[r] + t.retired[r] == Bag(s.cache, EntryRefs)[r] + s.retired[r]
    ensures Conserved(t)
  {
    BagPut(s.ops, LocalRefs, id, op);
    SameConserves(s, t);
  }

  lemma MissConserves(s: State, id: OpId)
    requires Conserved(s) && Enabled(s, Miss(id))
    ensures Conserved(DoMiss(s, id))
  {
    BagDelete(s.cache, EntryRefs, KeyOf(s.ops[id].call).value);
    QuietConserves(s, id, DoMiss(s, id).ops[id], DoMiss(s, id));
  }

  lemma FailureConserves(s: State, id: OpId, reply: HttpReply)
    requires Conserved(s) && Enabled(s, GotFailure(id, reply))
    ensures Conserved(DoGotFailure(s, id, reply))
  {
    BagDelete(s.cache, EntryRefs, KeyOf(s.ops[id].call).value);
    QuietConserves(s, id, DoGotFailure(s, id, reply).ops[id], DoGotFailure(s, id, reply));
  }

  lemma HitConserves(s: State, id: OpId)
    requires Conserved(s) && Enabled(s, Hit(id))
    ensures Conserved(DoHit(s, id))
  {
    var t := DoHit(s, id);
    var ref := s.cache[KeyOf(s.ops[id].call).value].ref;
    EntryOwned(s, KeyOf(s.ops[id].call).value);
    GainCount(s, id, t.ops[id], ref, t);
    ShareConserves(s, t, ref);
  }

  /** A call comes to hold a reference that it did not hold. */
  lemma GainCount(s: State, id: OpId, op: Op, ref: Ref, t: State)
    requires id in s.ops && LocalRefs(s.ops[id]) == multiset{} && LocalRefs(op) == multiset{ref}
    requires t.ops == s.ops[id := op] && t.cache == s.cache && t.retired == s.retired && t.results == s.results
    ensures forall r: Ref :: OwnerCount(t, r) == OwnerCount(s, r) + One(ref, r)
  {
    BagPut(s.ops, LocalRefs, id, op);
  }

  /** A new string in the cache; the call keeps a reference of its own if `op` says so. */
  lemma InsertConserves(s: State, id: OpId, op: Op, k: Key, e: Entry, t: State)
    requires Conserved(s) && id in s.ops && LocalRefs(s.ops[id]) == multiset{} && e.ref.loc !in s.heap
    requires LocalRefs(op) == multiset{e.ref} || LocalRefs(op) == multiset{}
    requires t.ops == s.ops[id := op] && t.cache == s.cache[k := e] && t.retired == s.retired + Held(s.cache, k)
    requires t.heap == s.heap[e.ref.loc := Cell(e.ref.text, 1 + LocalRefs(op)[e.ref])]
    requires t.results == s.results && !t.dangling
    ensures Conserved(t)
  {
    InsertCount(s, id, op, k, e, t);
    AllocConserves(s, t, e.ref, 1 + LocalRefs(op)[e.ref]);
  }

  lemma InsertCount(s: State, id: OpId, op: Op, k: Key, e: Entry, t: State)
    requires id in s.ops && LocalRefs(s.ops[id]) == multiset{}
    requires LocalRefs(op) == multiset{e.ref} || LocalRefs(op) == multiset{}
    requires t.ops == s.ops[id := op] && t.cache == s.cache[k := e] && t.retired == s.retired + Held(s.cache, k)
    requires t.results == s.results
    ensures forall r: Ref ::
      OwnerCount(t, r) == OwnerCount(s, r) + if r == e.ref then 1 + LocalRefs(op)[e.ref] else 0
  {
    BagPut(s.ops, LocalRefs, id, op);
    BagPut(s.cache, EntryRefs, k, e);
  }

  /** Entries that a closing store gives up are owned as retired copies instead. */
  lemma ClosingCount(cache: map<Key, Entry>, retired: multiset<Ref>, alive: bool)
    ensures forall r: Ref :: Bag(KeptEntries(cache, alive), EntryRefs)[r] + (retired + LostEntries(cache, alive))[r]
              == Bag(cache, EntryRefs)[r] + retired[r]
  {
  }

  lemma FinishConserves(s: State, id: OpId)
    requires Conserved(s) && Enabled(s, Finish(id)) && id !in s.results && Fits(s.ops[id])
    ensures Conserved(DoFinish(s, id))
  {
    var t := DoFinish(s, id);
    ClosingCount(s.cache, s.retired, Alive(s.cfg, s.box, HandlesLeft(s, s.ops[id])));
    AnswerRefs(s.ops[id], t.ops[id]);
    if s.ops[id].call.Get? {
      HandOverConserves(s, id, t.ops[id], t.results[id], t);
    } else {
      QuietConserves(s, id, t.ops[id], t);
    }
  }

  /** A get hands over what it held; a set holds nothing. */
  lemma AnswerRefs(op: Op, ended: Op)
    requires op.phase.Returning? && Fits(op) && ended.phase.Finished?
    ensures LocalRefs(ended) == multiset{} && ResultRefs(ResultOf(op.phase.answer)) == LocalRefs(op)
    ensures op.call.Set? ==> LocalRefs(op) == multiset{}
  {
  }

  /** The reference that a get held becomes the one in its result. */
  lemma HandOverConserves(s: State, id: OpId, op: Op, r: GetResult, t: State)
    requires Conserved(s) && id in s.ops && id !in s.results
    requires LocalRefs(op) == multiset{} && ResultRefs(r) == LocalRefs(s.ops[id])
    requires t.ops == s.ops[id := op] && t.results == s.results[id := r] && t.heap == s.heap && !t.dangling
    requires forall ref: Ref ::
      Bag(t.cache, EntryRefs)[ref] + t.retired[ref] == Bag(s.cache, EntryRefs)[ref] + s.retired[ref]
    ensures Conserved(t)
  {
    BagPut(s.ops, LocalRefs, id, op);
    BagAdd(s.results, ResultRefs, id, r);
    SameConserves(s, t);
  }

  lemma ReleaseConserves(s: State, id: OpId)
    requires Conserved(s) && Enabled(s, Release(id))
    ensures Conserved(DoRelease(s, id))
  {
    if s.results[id].arc.Some? {
      ResultOwned(s, id);
      ReleaseCount(s, id, DoRelease(s, id));
      FreeConserves(s, DoRelease(s, id), s.results[id].arc.value);
    }
  }

  lemma ReleaseCount(s: State, id: OpId, t: State)
    requires id in s.results && s.results[id].arc.Some? && t.results == s.results[id := s.results[id].(arc := None)]
    requires t.cache == s.cache && t.retired == s.retired && t.ops == s.ops
    ensures forall r: Ref :: OwnerCount(t, r) == OwnerCount(s, r) - One(s.results[id].arc.value, r)
  {
    BagPut(s.results, ResultRefs, id, t.results[id]);
  }

  lemma ClearConserves(s: State)
    requires Conserved(s)
    ensures Conserved(DoClear(s))
  {
    SameConserves(s, DoClear(s));
  }

  lemma DestroyConserves(s: State)
    requires Conserved(s)
    ensures Conserved(DoDestroy(s))
  {
    var t := DoDestroy(s);
    ClosingCount(s.cache, s.retired, Alive(t.cfg, t.box, t.clones));
    SameConserves(s, t);
  }

  lemma DropRetiredConserves(s: State, ref: Ref)
    requires Conserved(s) && ref in s.retired
    ensures Conserved(DoDropRetired(s, ref))
  {
    var t := DoDropRetired(s, ref);
    assert OwnerCount(s, ref) == Strong(s.heap, ref);
    FreeConserves(s, t, ref);
  }

  /** A result appears exactly when its get finishes, and tells of its answer. */
  ghost predicate ResultsTell(s: State) {
    && (forall id :: id in s.results <==> id in s.ops && s.ops[id].call.Get? && s.ops[id].phase.Finished?)
    && (forall id :: id in s.results ==> Tells(s.results[id], s.ops[id].phase.answer))
  }

  ghost predicate Inv(s: State) {
    Conserved(s) && ResultsTell(s) && AllFit(s)
  }

  /** The steps of a call under way. */
  lemma CallStepConserves(s: State, step: Step)
    requires Inv(s) && Enabled(s, step)
    requires step.Reject? || step.Submit? || step.ServeGet? || step.ServePut?
    ensures Conserved(Apply(s, step))
  {
    QuietConserves(s, step.id, Apply(s, step).ops[step.id], Apply(s, step));
  }

  lemma ValueConserves(s: State, id: OpId, reply: HttpReply, loc: Loc)
    requires Conserved(s) && Enabled(s, GotValue(id, reply, loc))
    ensures Conserved(DoGotValue(s, id, reply, loc))
  {
    var t, k := DoGotValue(s, id, reply, loc), KeyOf(s.ops[id].call).value;
    InsertConserves(s, id, t.ops[id], k, t.cache[k], t);
  }

  lemma StoredConserves(s: State, id: OpId, reply: HttpReply, loc: Loc)
    requires Conserved(s) && Enabled(s, GotStored(id, reply, loc))
    ensures Conserved(DoGotStored(s, id, reply, loc))
  {
    var t, k := DoGotStored(s, id, reply, loc), KeyOf(s.ops[id].call).value;
    InsertConserves(s, id, t.ops[id], k, t.cache[k], t);
  }

  lemma StepConserves(s: State, step: Step)
    requires Inv(s) && Enabled(s, step)
    ensures Conserved(Apply(s, step))
  {
    match step
    case Tick =>
    case ForeignPut(_, _) =>
    case ForeignDelete(_) =>
    case Remove(key) => RemoveEntryCount(s, key);
    case Clear => ClearConserves(s);
    case DropRetired(ref) => DropRetiredConserves(s, ref);
    case Begin(id, ctx, call) => BeginConserves(s, id, ctx, call);
    case Hit(id) => HitConserves(s, id);
    case Miss(id) => MissConserves(s, id);
    case GotValue(id, reply, loc) => ValueConserves(s, id, reply, loc);
    case GotStored(id, reply, loc) => StoredConserves(s, id, reply, loc);
    case GotFailure(id, reply) => FailureConserves(s, id, reply);
    case Finish(id) => FinishConserves(s, id);
    case Release(id) => ReleaseConserves(s, id);
    case Destroy => DestroyConserves(s);
    case _ => CallStepConserves(s, step);
  }

  lemma FinishTells(s: State, id: OpId)
    requires ResultsTell(s) && Enabled(s, Finish(id)) && Fits(s.ops[id])
    ensures ResultsTell(DoFinish(s, id))
  {
  }

  lemma ReleaseTells(s: State, id: OpId)
    requires ResultsTell(s) && Enabled(s, Release(id))
    ensures ResultsTell(DoRelease(s, id))
  {
  }

  lemma BeginTells(s: State, id: OpId, ctx: Ctx, call: Call)
    requires ResultsTell(s) && Enabled(s, Begin(id, ctx, call))
    ensures ResultsTell(DoBegin(s, id, ctx, call))
  {
  }

  lemma ContinuingTells(s: State, t: State, id: OpId)
    requires ResultsTell(s) && Continues(s, t, id)
    ensures ResultsTell(t)
  {
  }

  lemma SameTells(s: State, t: State)
    requires ResultsTell(s) && t.ops == s.ops && t.results == s.results
    ensures ResultsTell(t)
  {
  }

  lemma StepKeepsTelling(s: State, step: Step)
    requires ResultsTell(s) && AllFit(s) && Enabled(s, step)
    ensures ResultsTell(Apply(s, step))
  {
    if step.Finish? {
      FinishTells(s, step.id);
    } else if step.Release? {
      ReleaseTells(s, step.id);
    } else if step.Begin? {
      BeginTells(s, step.id, step.ctx, step.call);
    } else if CallStep(step) {
      CallContinues(s, step, Apply(s, step));
      ContinuingTells(s, Apply(s, step), step.id);
    } else {
      OtherStepKeepsCalls(s, step, Apply(s, step));
      OtherStepKeepsResults(s, step, Apply(s, step));
      SameTells(s, Apply(s, step));
    }
  }

  lemma StepKeepsInv(s: State, step: Step)
    requires Inv(s) && Enabled(s, step)
    ensures Inv(Apply(s, step))
  {
    StepConserves(s, step);
    StepKeepsTelling(s, step);
    StepKeepsFit(s, step);
  }

  /** In every reachable state, under no assumption on callers but that they release what they were given. */
  lemma {:induction false} ReferenceConservation(d: Discipline, s: State, steps: seq<Step>)
    requires Init(s) && Run(d, s, steps)
    ensures Inv(After(s, steps))
    decreases |steps|
  {
    if steps != [] {
      var n := |steps| - 1;
      ReferenceConservation(d, s, steps[..n]);
      StepKeepsInv(After(s, steps[..n]), steps[n]);
    }
  }

  /** The view of an unreleased result denotes allocated memory that reads what the get found. */
  lemma {:induction false} UnreleasedViewIsAlive(d: Discipline, s: State, steps: seq<Step>, id: OpId)
    requires Init(s) && Run(d, s, steps)
    requires id in After(s, steps).results && After(s, steps).results[id].arc.Some?
    ensures
      var t := After(s, steps);
      var view := t.results[id].value;
      && view.Some? && view.value.loc in t.heap && t.heap[view.value.loc].text == view.value.text
      && id in t.ops && t.ops[id].phase == Finished(Found(view.value)) && t.results[id].code == Success
  {
    ReferenceConservation(d, s, steps);
    ResultOwned(After(s, steps), id);
  }

  /** Every call is answered, and every result given back. */
  ghost predicate AllReturned(s: State) {
    && (forall id :: id in s.ops ==> !Pending(s.ops[id]))
    && (forall id :: id in s.results ==> s.results[id].arc.None?)
  }

  lemma {:induction false} NoRefs<K, V>(m: map<K, V>, f: V -> multiset<Ref>)
    requires forall k :: k in m ==> f(m[k]) == multiset{}
    ensures Bag(m, f) == multiset{}
    decreases |m|
  {
    if m != map[] {
      var k :| k in m;
      BagRemove(m, f, k);
      assert |m - {k}| < |m| by { assert (m - {k}).Keys == m.Keys - {k}; }
      NoRefs(m - {k}, f);
    }
  }

  /**
   Nothing leaks: a string is allocated only while some owner holds it, and once the client is destroyed, its
   calls ended, their results released and what the cache retired dropped, there is no string left.
   */
  lemma {:induction false} DestroyedMeansFreed(d: Discipline, s: State, steps: seq<Step>)
    requires Init(s) && Run(d, s, steps)
    ensures
      var t := After(s, steps);
      && (forall l :: l in t.heap ==> OwnerCount(t, Ref(l, t.heap[l].text)) > 0)
      && (!t.box && AllReturned(t) && t.retired == multiset{} ==> t.heap == map[])
  {
    ReferenceConservation(d, s, steps);
    Lifecycle.NoUseAfterDestroy(d, s, steps);
    AllocatedMeansOwned(After(s, steps));
    if !After(s, steps).box && AllReturned(After(s, steps)) && After(s, steps).retired == multiset{} {
      GoneMeansFreed(After(s, steps));
    }
  }

  lemma AllocatedMeansOwned(t: State)
    requires Counted(t) && NoZombies(t.heap)
    ensures forall l :: l in t.heap ==> OwnerCount(t, Ref(l, t.heap[l].text)) > 0
  {
    forall l | l in t.heap ensures OwnerCount(t, Ref(l, t.heap[l].text)) > 0 {
      assert OwnerCount(t, Ref(l, t.heap[l].text)) == Strong(t.heap, Ref(l, t.heap[l].text));
    }
  }

  lemma GoneMeansFreed(t: State)
    requires Inv(t) && Lifecycle.Inv(t) && !t.box && AllReturned(t) && t.retired == multiset{}
    ensures t.heap == map[]
  {
    Lifecycle.HeldMeansAlive(t);
    AllocatedMeansOwned(t);
    NoOwnerLeft(t);
  }

  lemma NoOwnerLeft(t: State)
    requires forall l :: l in t.heap ==> OwnerCount(t, Ref(l, t.heap[l].text)) > 0
    requires t.cache == map[] && t.retired == multiset{} && AllReturned(t)
    ensures t.heap == map[]
  {
    NoRefs(t.ops, LocalRefs);
    NoRefs(t.results, ResultRefs);
    assert t.heap.Keys == {};
  }

  /** Releasing a result once takes one from the count of its string and from no other; again, from none. */
  lemma {:induction false} ReleasedExactlyOnce(d: Discipline, s: State, steps: seq<Step>, id: OpId)
    requires Init(s) && Run(d, s, steps)
    requires id in After(s, steps).results && After(s, steps).results[id].arc.Some?
    ensures
      var t := After(s, steps);
      var u := DoRelease(t, id);
      && (forall r: Ref :: Strong(u.heap, r) == Strong(t.heap, r) - One(t.results[id].arc.value, r))
      && DoRelease(u, id) == u
  {
    ReferenceConservation(d, s, steps);
    var t := After(s, steps);
    ResultOwned(t, id);
    DropStrong(t.heap, t.results[id].arc.value);
  }

  // ------------------------------------------------------------------ teardown

  ghost predicate Torn(s: State) {
    !s.box && AllReturned(s)
  }

  lemma OneFewer(t: State, ref: Ref)
    requires Torn(t) && ref in t.retired
    ensures Torn(DoDropRetired(t, ref)) && |DoDropRetired(t, ref).retired| == |t.retired| - 1
  {
  }

  /** A run that has ended with the client gone and n copies still to be dropped. */
  ghost predicate TearingDown(s: State, steps: seq<Step>, n: nat) {
    Run(Free, s, steps) && Torn(After(s, steps)) && |After(s, steps).retired| == n
  }

  lemma DropOne(s: State, steps: seq<Step>, n: nat) returns (drop: Step)
    requires TearingDown(s, steps, n) && n > 0
    ensures drop.DropRetired? && TearingDown(s, steps + [drop], n - 1)
  {
    var ref :| ref in After(s, steps).retired;
    drop := DropRetired(ref);
    var next := Extend(Free, s, steps, drop);
    OneFewer(After(s, steps), ref);
  }

  predicate OnlyDrops(steps: seq<Step>) {
    forall i :: 0 <= i < |steps| ==> steps[i].DropRetired?
  }

  /** The cache drops what it has retired, one copy at a time. */
  lemma {:induction false} DropAll(s: State, steps: seq<Step>, n: nat) returns (all: seq<Step>)
    requires TearingDown(s, steps, n)
    ensures TearingDown(s, all, 0) && steps <= all && |all| == |steps| + n && OnlyDrops(all[|steps|..])
    decreases n
  {
    all := steps;
    if n > 0 {
      var drop := DropOne(s, steps, n);
      all := DropAll(s, steps + [drop], n - 1);
    }
  }

  /**
   After destroy the cache can only drop what it has retired, one copy at a time: however far it has come, that
   many more drops are possible, and then no string is left.
   */
  lemma {:induction false} TeardownFrees(s: State, steps: seq<Step>) returns (drops: seq<Step>)
    requires Init(s) && Run(Free, s, steps) && Torn(After(s, steps))
    ensures Run(Free, s, steps + drops) && After(s, steps + drops).heap == map[]
    ensures OnlyDrops(drops) && |drops| == |After(s, steps).retired|
  {
    var all := DropAll(s, steps, |After(s, steps).retired|);
    drops := all[|steps|..];
    assert steps + drops == all;
    DestroyedMeansFreed(Free, s, steps + drops);
  }
}
