// Why coherence and the session guarantees need every condition on how a client's calls overlap.
module Race {
  import opened Common
  import opened Http
  import opened Versions
  import opened Machine
  import opened Calls
  import opened Session
  import Lifecycle

  // ------------------------------------------------------------------ two calls go out

  /** Nothing has been cached yet; every call has a context of its own. */
  ghost predicate Blank(t: State) {
    && t.box && t.cfg.ttl > 0 && t.ctxs <= t.ops.Keys
    && t.cache == map[] && t.retired == multiset{} && t.heap == map[]
  }

  /** A call whose request is out and not yet served. */
  function Sent(call: Call, id: OpId, now: Time): Op {
    Op(call, id, Phase.Sending, true, None, None, None, now, now)
  }

  /** What the steps of `Launch` leave as it was, and what they add. */
  ghost predicate Launched(t: State, u: State, id: OpId, call: Call) {
    && Blank(u) && u.ops == t.ops[id := Sent(call, id, t.now)]
    && u.history == t.history && u.now == t.now && u.log == t.log
  }

  lemma MissLaunches(t: State, id: OpId, call: Call)
    requires Blank(t) && id !in t.ops && call.Get? && KeyOf(call).Some?
    ensures Enabled(DoBegin(t, id, id, call), Miss(id)) && Launched(t, DoMiss(DoBegin(t, id, id, call), id), id, call)
  {
  }

  lemma SubmitLaunches(t: State, id: OpId, call: Call)
    requires Blank(t) && id !in t.ops && call.Set? && KeyOf(call).Some?
    ensures Enabled(DoBegin(t, id, id, call), Submit(id))
    ensures Launched(t, DoSubmit(DoBegin(t, id, id, call), id), id, call)
  {
  }

  lemma Launch(d: Discipline, s: State, steps: seq<Step>, id: OpId, call: Call) returns (more: seq<Step>)
    requires Run(d, s, steps) && Blank(After(s, steps)) && id !in After(s, steps).ops && KeyOf(call).Some?
    requires Allowed(d, After(s, steps), Begin(id, id, call))
    ensures Run(d, s, more) && Launched(After(s, steps), After(s, more), id, call)
  {
    var t := After(s, steps);
    more := Extend(d, s, steps, Begin(id, id, call));
    if call.Get? {
      MissLaunches(t, id, call);
      more := Extend(d, s, more, Miss(id));
    } else {
      SubmitLaunches(t, id, call);
      more := Extend(d, s, more, Submit(id));
    }
  }

  // ------------------------------------------------------------------ the server answers them

  /** A call on k that has been served and waits for its reply; its insert will put `value` at version n. */
  ghost predicate Served(op: Op, k: Key, value: Value, n: nat) {
    && KeyOf(op.call) == Some(k) && op.phase.Sending? && op.asked
    && op.stamp.Some? && op.stamp.value.version == n
    && match op.call
       case Get(_) => op.reply == Some(Reply(200, Some(value)))
       case Set(_, content) => content == Text(value) && op.reply == Some(Reply(200, None))
  }

  /** One call has been served; the others and all else are as they were. */
  ghost predicate ServedIn(t: State, u: State, id: OpId, k: Key, value: Value, n: nat) {
    && Blank(u) && id in u.ops && u.ops == t.ops[id := u.ops[id]] && Served(u.ops[id], k, value, n)
    && u.now == t.now && u.log == t.log
  }

  lemma ServeRead(d: Discipline, s: State, steps: seq<Step>, id: OpId, k: Key, value: Value) returns (more: seq<Step>)
    requires Run(d, s, steps) && Blank(After(s, steps)) && Current(After(s, steps).history, k) == Some(value)
    requires id in After(s, steps).ops && After(s, steps).ops[id] == Sent(Get(Text(k)), id, After(s, steps).now)
    ensures Run(d, s, more) && After(s, more).history == After(s, steps).history
    ensures ServedIn(After(s, steps), After(s, more), id, k, value, Latest(After(s, steps).history, k))
  {
    more := Extend(d, s, steps, ServeGet(id));
  }

  lemma ServeWrite(d: Discipline, s: State, steps: seq<Step>, id: OpId, k: Key, value: Value)
    returns (more: seq<Step>)
    requires Run(d, s, steps) && Blank(After(s, steps))
    requires id in After(s, steps).ops
    requires After(s, steps).ops[id] == Sent(Set(Text(k), Text(value)), id, After(s, steps).now)
    ensures Run(d, s, more)
    ensures Overwritten(After(s, steps).history, After(s, more).history, k, value)
    ensures ServedIn(After(s, steps), After(s, more), id, k, value, Latest(After(s, more).history, k))
  {
    var t := After(s, steps);
    WriteAppends(t.history, k, Some(value), t.now);
    more := Extend(d, s, steps, ServePut(id));
  }

  /** The key has one more version, with this value. */
  ghost predicate Overwritten(h: History, g: History, k: Key, value: Value) {
    Latest(g, k) == Latest(h, k) + 1 && Current(g, k) == Some(value)
  }

  lemma WriteElsewhere(d: Discipline, s: State, steps: seq<Step>, k: Key, value: Value) returns (more: seq<Step>)
    requires Run(d, s, steps) && Blank(After(s, steps)) && d.PerKeyBut?
    ensures Run(d, s, more) && Blank(After(s, more)) && After(s, more).ops == After(s, steps).ops
    ensures Overwritten(After(s, steps).history, After(s, more).history, k, value)
    ensures After(s, more).now == After(s, steps).now && After(s, more).log == After(s, steps).log
  {
    var t := After(s, steps);
    WriteAppends(t.history, k, Some(value), t.now);
    more := Extend(d, s, steps, ForeignPut(k, value));
  }

  // ------------------------------------------------------------------ four ways to get there

  /** Two served calls on k: what `late` will insert is older than what `quick` will, and than the server's value. */
  ghost predicate Poised(t: State, k: Key, late: OpId, past: Value, m: nat, quick: OpId, newer: Value, n: nat) {
    && Blank(t) && t.log == [] && late != quick && t.ops.Keys == {late, quick}
    && Served(t.ops[late], k, past, m) && Served(t.ops[quick], k, newer, n) && m < n
    && Current(t.history, k) == Some(newer)
  }

  ghost predicate Permits(d: Discipline, overlap: Overlap) {
    d == PerKeyBut(overlap) || (d == RaceFreeBut(overlap) && !overlap.GetOverGet?)
  }

  lemma LaunchTwo(d: Discipline, overlap: Overlap, s: State, k: Key, first: Call, second: Call)
    returns (steps: seq<Step>)
    requires Permits(d, overlap) && Init(s) && s.cfg.ttl > 0
    requires KeyOf(first) == Some(k) && KeyOf(second) == Some(k) && Overlaps(overlap, second, first)
    ensures Run(d, s, steps)
    ensures
      var t := After(s, steps);
      && Blank(t) && t.log == [] && t.history == s.history
      && t.ops == map[0 := Sent(first, 0, t.now), 1 := Sent(second, 1, t.now)]
  {
    steps := Launch(d, s, [], 0, first);
    var t := After(s, steps);
    assert t.ops == map[0 := Sent(first, 0, t.now)];
    assert Allowed(d, t, Begin(1, 1, second));
    steps := Launch(d, s, steps, 1, second);
  }

  lemma PoiseSetOverGet(d: Discipline, s: State, k: Key, past: Value, newer: Value)
    returns (steps: seq<Step>, m: nat, n: nat)
    requires Permits(d, SetOverGet) && Init(s) && s.cfg.ttl > 0 && Current(s.history, k) == Some(past)
    ensures Run(d, s, steps) && Poised(After(s, steps), k, 0, past, m, 1, newer, n)
  {
    m, n := Latest(s.history, k), Latest(s.history, k) + 1;
    steps := LaunchTwo(d, SetOverGet, s, k, Get(Text(k)), Set(Text(k), Text(newer)));
    steps := ServeRead(d, s, steps, 0, k, past);
    steps := ServeWrite(d, s, steps, 1, k, newer);
  }

  lemma PoiseGetOverSet(d: Discipline, s: State, k: Key, past: Value, newer: Value)
    returns (steps: seq<Step>, m: nat, n: nat)
    requires Permits(d, GetOverSet) && Init(s) && s.cfg.ttl > 0 && Current(s.history, k) == Some(past)
    ensures Run(d, s, steps) && Poised(After(s, steps), k, 1, past, m, 0, newer, n)
  {
    m, n := Latest(s.history, k), Latest(s.history, k) + 1;
    steps := LaunchTwo(d, GetOverSet, s, k, Set(Text(k), Text(newer)), Get(Text(k)));
    steps := ServeRead(d, s, steps, 1, k, past);
    steps := ServeWrite(d, s, steps, 0, k, newer);
  }

  lemma PoiseSetOverSet(d: Discipline, s: State, k: Key, past: Value, newer: Value)
    returns (steps: seq<Step>, m: nat, n: nat)
    requires Permits(d, SetOverSet) && Init(s) && s.cfg.ttl > 0
    ensures Run(d, s, steps) && Poised(After(s, steps), k, 0, past, m, 1, newer, n)
  {
    m, n := Latest(s.history, k) + 1, Latest(s.history, k) + 2;
    steps := LaunchTwo(d, SetOverSet, s, k, Set(Text(k), Text(past)), Set(Text(k), Text(newer)));
    steps := ServeWrite(d, s, steps, 0, k, past);
    steps := ServeWrite(d, s, steps, 1, k, newer);
  }

  lemma PoiseGetOverGet(d: Discipline, s: State, k: Key, past: Value, newer: Value)
    returns (steps: seq<Step>, m: nat, n: nat)
    requires Permits(d, GetOverGet) && Init(s) && s.cfg.ttl > 0 && Current(s.history, k) == Some(past)
    ensures Run(d, s, steps) && Poised(After(s, steps), k, 0, past, m, 1, newer, n)
  {
    m, n := Latest(s.history, k), Latest(s.history, k) + 1;
    steps := LaunchTwo(d, GetOverGet, s, k, Get(Text(k)), Get(Text(k)));
    steps := ServeRead(d, s, steps, 0, k, past);
    steps := WriteElsewhere(d, s, steps, k, newer);
    steps := ServeRead(d, s, steps, 1, k, newer);
  }

  // ------------------------------------------------------------------ the older insert lands last

  /** A call on k that has returned with version n. */
  ghost predicate ReturnedWith(op: Op, k: Key, n: nat) {
    KeyOf(op.call) == Some(k) && op.phase.Finished? && Observed(op) && Version(op) == n
  }

  /** A call lands: its value is cached, at a new place, and it returns. */
  ghost predicate Landed(t: State, u: State, id: OpId, k: Key, value: Value, n: nat) {
    && u.box && u.cfg == t.cfg && u.now == t.now && u.history == t.history && u.log == t.log + [id]
    && u.ctxs <= t.ctxs && u.heap.Keys == t.heap.Keys + {|t.log|}
    && Fresh(u, k) && u.cache[k].ref.text == value && u.cache[k].stamp.version == n
    && id in u.ops && u.ops == t.ops[id := u.ops[id]] && ReturnedWith(u.ops[id], k, n)
  }

  lemma TwoHandles(t: State, id: OpId)
    requires Lifecycle.Inv(t) && t.box && id in t.ops && Spawned(t.ops[id])
    ensures t.cfg.async ==> t.clones >= 2
  {
    assert id in Lifecycle.Tasks(t.ops);
  }

  lemma ValueLands(t: State, id: OpId, k: Key, value: Value, n: nat)
    requires t.box && t.cfg.ttl > 0 && (t.cfg.async ==> t.clones >= 2) && |t.log| !in t.heap
    requires id in t.ops && t.ops[id].call.Get? && Served(t.ops[id], k, value, n)
    ensures Enabled(t, GotValue(id, t.ops[id].reply.value, |t.log|))
    ensures Landed(t, DoFinish(DoGotValue(t, id, t.ops[id].reply.value, |t.log|), id), id, k, value, n)
  {
  }

  lemma StoreLands(t: State, id: OpId, k: Key, value: Value, n: nat)
    requires t.box && t.cfg.ttl > 0 && (t.cfg.async ==> t.clones >= 2) && |t.log| !in t.heap
    requires id in t.ops && t.ops[id].call.Set? && Served(t.ops[id], k, value, n)
    ensures Enabled(t, GotStored(id, t.ops[id].reply.value, |t.log|))
    ensures Landed(t, DoFinish(DoGotStored(t, id, t.ops[id].reply.value, |t.log|), id), id, k, value, n)
  {
  }

  /** A call that is ready to land in a client that lives on. */
  ghost predicate CanLand(t: State, id: OpId, k: Key, value: Value, n: nat) {
    && t.box && t.cfg.ttl > 0 && |t.log| !in t.heap
    && id in t.ops && Served(t.ops[id], k, value, n)
  }

  lemma LandTwo(d: Discipline, s: State, steps: seq<Step>, got: Step, id: OpId) returns (more: seq<Step>)
    requires Run(d, s, steps) && Enabled(After(s, steps), got) && IsAnswered(got)
    requires Enabled(Apply(After(s, steps), got), Finish(id))
    ensures Run(d, s, more) && After(s, more) == DoFinish(Apply(After(s, steps), got), id)
  {
    CallStepsAllowed(d, After(s, steps), got);
    more := Extend(d, s, steps, got);
    CallStepsAllowed(d, After(s, more), Finish(id));
    more := Extend(d, s, more, Finish(id));
  }

  lemma CallStepsAllowed(d: Discipline, t: State, step: Step)
    requires CallStep(step)
    ensures Allowed(d, t, step)
  {
  }

  lemma Land(d: Discipline, s: State, steps: seq<Step>, id: OpId, k: Key, value: Value, n: nat)
    returns (more: seq<Step>)
    requires Init(s) && Run(d, s, steps) && CanLand(After(s, steps), id, k, value, n)
    ensures Run(d, s, more) && Landed(After(s, steps), After(s, more), id, k, value, n)
  {
    var t := After(s, steps);
    HandlesRemain(d, s, steps, id);
    var got := if t.ops[id].call.Get? then GotValue(id, t.ops[id].reply.value, |t.log|)
               else GotStored(id, t.ops[id].reply.value, |t.log|);
    Lands(t, id, k, value, n, got);
    more := LandTwo(d, s, steps, got, id);
  }

  lemma Lands(t: State, id: OpId, k: Key, value: Value, n: nat, got: Step)
    requires CanLand(t, id, k, value, n) && (t.cfg.async ==> t.clones >= 2)
    requires got == if t.ops[id].call.Get? then GotValue(id, t.ops[id].reply.value, |t.log|)
                    else GotStored(id, t.ops[id].reply.value, |t.log|)
    ensures Enabled(t, got) && Enabled(Apply(t, got), Finish(id))
    ensures Landed(t, DoFinish(Apply(t, got), id), id, k, value, n)
  {
    if t.ops[id].call.Get? {
      ValueLands(t, id, k, value, n);
    } else {
      StoreLands(t, id, k, value, n);
    }
  }

  lemma HandlesRemain(d: Discipline, s: State, steps: seq<Step>, id: OpId)
    requires Init(s) && Run(d, s, steps) && After(s, steps).box
    requires id in After(s, steps).ops && Spawned(After(s, steps).ops[id])
    ensures After(s, steps).cfg.async ==> After(s, steps).clones >= 2
  {
    Lifecycle.NoUseAfterDestroy(d, s, steps);
    TwoHandles(After(s, steps), id);
  }

  // ------------------------------------------------------------------ and stays

  /** No call on any key is running, and the cache differs from the server. */
  ghost predicate QuietAndStale(t: State, k: Key) {
    && (forall id :: id in t.ops ==> !Pending(t.ops[id]))
    && k in t.cache && Current(t.history, k) != Some(t.cache[k].ref.text)
  }

  /** A new get of k can begin, and will hit. */
  ghost predicate CanHit(t: State, id: OpId, k: Key) {
    && t.box && Fresh(t, k) && id !in t.ops && id !in t.ctxs
    && forall j :: j in t.ops ==> !Pending(t.ops[j])
  }

  ghost predicate HitBy(t: State, u: State, id: OpId, k: Key)
    requires k in t.cache
  {
    && u.log == t.log + [id] && id in u.ops && u.ops == t.ops[id := u.ops[id]]
    && u.ops[id].call == Get(Text(k)) && ReturnedWith(u.ops[id], k, t.cache[k].stamp.version)
  }

  lemma GetHits(t: State, id: OpId, k: Key)
    requires CanHit(t, id, k)
    ensures
      var begun := DoBegin(t, id, id, Get(Text(k)));
      && Enabled(begun, Hit(id)) && Enabled(DoHit(begun, id), Finish(id))
      && HitBy(t, DoFinish(DoHit(begun, id), id), id, k)
  {
  }

  lemma QuietAllows(d: Discipline, t: State, id: OpId, k: Key)
    requires CanHit(t, id, k)
    ensures Enabled(t, Begin(id, id, Get(Text(k)))) && Allowed(d, t, Begin(id, id, Get(Text(k))))
  {
  }

  /** A get that begins in the quiet hits and returns. */
  lemma LaterGet(d: Discipline, s: State, steps: seq<Step>, id: OpId, k: Key) returns (later: seq<Step>)
    requires Run(d, s, steps) && CanHit(After(s, steps), id, k)
    ensures Run(d, s, later) && steps <= later && HitBy(After(s, steps), After(s, later), id, k)
  {
    QuietAllows(d, After(s, steps), id, k);
    GetHits(After(s, steps), id, k);
    var begun := Extend(d, s, steps, Begin(id, id, Get(Text(k))));
    var hit := Extend(d, s, begun, Hit(id));
    later := Extend(d, s, hit, Finish(id));
  }

  /** A get that began after t reports less than a call on its key that had returned by then. */
  ghost predicate WentBack(t: State, u: State, k: Key) {
    exists i: nat, j: nat ::
      && ReportsOn(t, i, k) && ReportsOn(u, i, k) && ReportsOn(u, j, k)
      && u.log[j] !in t.ops && u.ops[u.log[j]].call.Get? && Reported(u, j) < Reported(u, i)
  }

  lemma PoisedLands(t: State, t1: State, k: Key, late: OpId, past: Value, m: nat, quick: OpId, newer: Value, n: nat)
    requires Poised(t, k, late, past, m, quick, newer, n)
    ensures CanLand(t, quick, k, newer, n)
    ensures Landed(t, t1, quick, k, newer, n) ==> CanLand(t1, late, k, past, m)
  {
  }

  lemma LandedIsStale(t: State, t1: State, t2: State, k: Key, late: OpId, past: Value, m: nat,
                      quick: OpId, newer: Value, n: nat)
    requires Poised(t, k, late, past, m, quick, newer, n) && late < 2 && quick < 2 && past != newer
    requires Landed(t, t1, quick, k, newer, n) && Landed(t1, t2, late, k, past, m)
    ensures QuietAndStale(t2, k) && CanHit(t2, 2, k)
    ensures t2.log == [quick, late] && ReturnedWith(t2.ops[quick], k, n) && t2.cache[k].stamp.version == m
  {
  }

  lemma HitGoesBack(t: State, u: State, k: Key, quick: OpId, late: OpId, n: nat)
    requires 2 !in t.ops && k in t.cache && HitBy(t, u, 2, k) && t.log == [quick, late] && quick != 2
    requires quick in t.ops && ReturnedWith(t.ops[quick], k, n) && t.cache[k].stamp.version < n
    ensures WentBack(t, u, k)
  {
    assert u.log == [quick, late, 2];
    assert ReportsOn(t, 0, k) && ReportsOn(u, 0, k) && ReportsOn(u, 2, k) && u.log[2] == 2;
  }

  /** From two calls poised: the newer value lands, then the older, which a later get still finds. */
  lemma OlderLandsLast(d: Discipline, s: State, steps0: seq<Step>, k: Key, late: OpId, past: Value, m: nat,
                       quick: OpId, newer: Value, n: nat)
    returns (steps: seq<Step>, later: seq<Step>)
    requires Init(s) && Run(d, s, steps0) && past != newer && late < 2 && quick < 2
    requires Poised(After(s, steps0), k, late, past, m, quick, newer, n)
    ensures Run(d, s, steps) && Run(d, s, later) && steps <= later
    ensures QuietAndStale(After(s, steps), k) && WentBack(After(s, steps), After(s, later), k)
  {
    var t := After(s, steps0);
    PoisedLands(t, t, k, late, past, m, quick, newer, n);
    var mid := Land(d, s, steps0, quick, k, newer, n);
    PoisedLands(t, After(s, mid), k, late, past, m, quick, newer, n);
    steps := Land(d, s, mid, late, k, past, m);
    LandedIsStale(t, After(s, mid), After(s, steps), k, late, past, m, quick, newer, n);
    later := LaterGet(d, s, steps, 2, k);
    HitGoesBack(After(s, steps), After(s, later), k, quick, late, n);
  }

  /**
   Each way in which calls on a key may not overlap is needed. If a client may let one begin over another in
   just one of those ways, then from every server that holds a value for the key, some run ends with nothing
   running and a stale entry, and a get that begins only then reports less than a call that had returned. For
   two gets that takes a write by somebody else; with a set, the client itself is the only writer.
   */
  lemma {:induction false} EachOverlapGoesStale(d: Discipline, overlap: Overlap, s: State, k: Key,
                                                past: Value, newer: Value)
    returns (steps: seq<Step>, later: seq<Step>)
    requires Permits(d, overlap)
    requires Init(s) && s.cfg.ttl > 0 && Current(s.history, k) == Some(past) && newer != past
    ensures Run(d, s, steps) && Run(d, s, later) && steps <= later
    ensures QuietAndStale(After(s, steps), k) && WentBack(After(s, steps), After(s, later), k)
  {
    var m, n;
    match overlap
    case SetOverGet =>
      steps, m, n := PoiseSetOverGet(d, s, k, past, newer);
      steps, later := OlderLandsLast(d, s, steps, k, 0, past, m, 1, newer, n);
    case GetOverSet =>
      steps, m, n := PoiseGetOverSet(d, s, k, past, newer);
      steps, later := OlderLandsLast(d, s, steps, k, 1, past, m, 0, newer, n);
    case SetOverSet =>
      steps, m, n := PoiseSetOverSet(d, s, k, past, newer);
      steps, later := OlderLandsLast(d, s, steps, k, 0, past, m, 1, newer, n);
    case GetOverGet =>
      steps, m, n := PoiseGetOverGet(d, s, k, past, newer);
      steps, later := OlderLandsLast(d, s, steps, k, 0, past, m, 1, newer, n);
  }

  /** Nor can the sole writer be dispensed with: another's write leaves a cached value stale though no calls overlap. */
  lemma {:induction false} OtherWriteGoesStale(s: State, k: Key, past: Value, newer: Value) returns (steps: seq<Step>)
    requires Init(s) && s.cfg.ttl > 0 && Current(s.history, k) == Some(past) && newer != past
    ensures Run(PerKey, s, steps) && QuietAndStale(After(s, steps), k)
  {
    steps := GetThenWrite(s, [], 0, k, past, newer);
    steps := steps + [ForeignPut(k, newer)];
  }

  /** A quiet run that can go on with a get of k. */
  ghost predicate CanFetch(s: State, steps: seq<Step>, id: OpId, k: Key, past: Value) {
    && Run(PerKey, s, steps) && Blank(After(s, steps)) && id !in After(s, steps).ops
    && Current(After(s, steps).history, k) == Some(past)
    && forall j :: j in After(s, steps).ops ==> !Pending(After(s, steps).ops[j])
  }

  /** A get of k comes and goes, and is cached. */
  lemma GetLands(s: State, before: seq<Step>, id: OpId, k: Key, past: Value)
    returns (steps: seq<Step>, t: State, n: nat)
    requires Init(s) && CanFetch(s, before, id, k, past)
    ensures Run(PerKey, s, steps) && Landed(t, After(s, steps), id, k, past, n)
    ensures t.log == After(s, before).log && id in t.ops && t.ops == After(s, before).ops[id := t.ops[id]]
  {
    steps := GetIsServed(s, before, id, k, past);
    t, n := After(s, steps), Latest(After(s, before).history, k);
    steps := Land(PerKey, s, steps, id, k, past, n);
  }

  lemma GetIsServed(s: State, before: seq<Step>, id: OpId, k: Key, past: Value) returns (steps: seq<Step>)
    requires CanFetch(s, before, id, k, past)
    ensures Run(PerKey, s, steps)
    ensures
      var t := After(s, steps);
      && CanLand(t, id, k, past, Latest(After(s, before).history, k))
      && t.log == After(s, before).log && t.ops == After(s, before).ops[id := t.ops[id]]
  {
    steps := Launch(PerKey, s, before, id, Get(Text(k)));
    steps := ServeRead(PerKey, s, steps, id, k, past);
  }

  /** And then the server is written. */
  lemma GetThenWrite(s: State, before: seq<Step>, id: OpId, k: Key, past: Value, newer: Value)
    returns (steps: seq<Step>)
    requires Init(s) && CanFetch(s, before, id, k, past) && newer != past
    ensures Run(PerKey, s, steps + [ForeignPut(k, newer)])
    ensures
      var t, u := After(s, before), After(s, steps + [ForeignPut(k, newer)]);
      && QuietAndStale(u, k) && u.log == t.log + [id] && (forall j :: j in t.ops ==> j in u.ops && u.ops[j] == t.ops[j])
  {
    var t, n;
    steps, t, n := GetLands(s, before, id, k, past);
    WriteGoesStale(t, After(s, steps), id, k, past, n, newer);
    var more := Extend(PerKey, s, steps, ForeignPut(k, newer));
  }

  /** A set whose request fails unserved. */
  lemma {:induction false} FailedSet(s: State, k: Key, newer: Value) returns (steps: seq<Step>)
    requires Init(s) && s.cfg.ttl > 0
    ensures Run(PerKey, s, steps)
    ensures
      var t := After(s, steps);
      && Blank(t) && t.history == s.history && t.ops.Keys == {0} && t.log == [0]
      && t.ops[0].call == Set(Text(k), Text(newer)) && t.ops[0].asked
      && t.ops[0].phase == Finished(Failed(ConnectionError))
  {
    steps := Launch(PerKey, s, [], 0, Set(Text(k), Text(newer)));
    var t := After(s, steps);
    HandlesRemain(PerKey, s, steps, 0);
    FailureReturns(t, k, newer);
    steps := Extend(PerKey, s, steps, GotFailure(0, NoReply));
    steps := Extend(PerKey, s, steps, Finish(0));
  }

  lemma FailureReturns(t: State, k: Key, newer: Value)
    requires Blank(t) && t.ops == map[0 := Sent(Set(Text(k), Text(newer)), 0, t.now)] && t.log == []
    requires t.cfg.async ==> t.clones >= 2
    ensures
      var failed := DoGotFailure(t, 0, NoReply);
      && Enabled(t, GotFailure(0, NoReply)) && Enabled(failed, Finish(0))
      && var u := DoFinish(failed, 0);
      && Blank(u) && u.history == t.history && u.ops.Keys == {0} && u.log == [0]
      && u.ops[0].call == Set(Text(k), Text(newer)) && u.ops[0].asked
      && u.ops[0].phase == Finished(Failed(ConnectionError))
  {
  }

  /**
   The other write may be this client's own: a set fails, a get then caches what the server holds, and only then
   does the PUT of that set take effect.
   */
  lemma {:induction false} LatePutGoesStale(s: State, k: Key, past: Value, newer: Value) returns (steps: seq<Step>)
    requires Init(s) && s.cfg.ttl > 0 && Current(s.history, k) == Some(past) && newer != past
    ensures Run(PerKey, s, steps + [ForeignPut(k, newer)])
    ensures
      var u := After(s, steps + [ForeignPut(k, newer)]);
      && QuietAndStale(u, k) && u.log == [0, 1] && 0 in u.ops && u.ops[0].call == Set(Text(k), Text(newer))
      && u.ops[0].asked && u.ops[0].phase == Finished(Failed(ConnectionError))
  {
    steps := FailedSet(s, k, newer);
    steps := GetThenWrite(s, steps, 1, k, past, newer);
  }

  lemma WriteGoesStale(t: State, u: State, id: OpId, k: Key, past: Value, n: nat, newer: Value)
    requires forall j :: j in t.ops && j != id ==> !Pending(t.ops[j])
    requires Landed(t, u, id, k, past, n) && newer != past
    ensures QuietAndStale(Apply(u, ForeignPut(k, newer)), k)
  {
    WriteAppends(u.history, k, Some(newer), u.now);
  }
}
