// Any sequence of calls to one synchronous client: what it keeps, for how long, and what it counts.
module SyncRuns {
  import opened Common
  import opened Bags
  import opened Http
  import opened Machine
  import opened Cache
  import opened SyncSpec
  import Counters
  import Ffi

  // ------------------------------------------------------------------ what a call does to the books

  /** A get: a hit if the entry is `current`, otherwise the reply's value in a new string at `loc`, or nothing. */
  function GetBooks(b: Books, k: Key, current: bool, reply: HttpReply, loc: Loc, now: Time): (Books, Option<Ref>) {
    if current && k in b.entries then (Shared(b, k), Some(b.entries[k].ref))
    else
      match GetOutcome(reply)
      case Ok(text) => (With(Without(b, k), k, Entry(Ref(loc, text), Stamp(0, now), now), 2), Some(Ref(loc, text)))
      case Err(_) => (Without(b, k), None)
  }

  /** A set: the new string is the cache's alone, and nobody else is owed anything. */
  function SetBooks(b: Books, k: Key, value: Value, reply: HttpReply, loc: Loc, now: Time): Books {
    if SetOutcome(reply).None? then With(b, k, Entry(Ref(loc, value), Stamp(0, now), now), 1) else Without(b, k)
  }

  /** The reference that a result carries, if any. */
  function Owing(arc: Option<Ref>): multiset<Ref> {
    if arc.Some? then multiset{arc.value} else multiset{}
  }

  /** A get adds exactly its result to what is owed: no reference is lost, and none is made that nobody holds. */
  lemma GetConserves(b: Books, owed: multiset<Ref>, k: Key, current: bool, reply: HttpReply, loc: Loc, now: Time)
    requires Balanced(b, owed) && loc !in b.cells
    ensures
      var (after, arc) := GetBooks(b, k, current, reply, loc, now);
      Balanced(after, owed + Owing(arc))
  {
    if current && k in b.entries {
      ShareBalances(b, owed, k);
    } else {
      RemoveBalances(b, owed, k);
      if GetOutcome(reply).Ok? {
        var e := Entry(Ref(loc, GetOutcome(reply).value), Stamp(0, now), now);
        InsertBalances(Without(b, k), owed, k, e, 2, owed + multiset{e.ref});
      } else {
        assert owed + multiset{} == owed;
      }
    }
  }

  lemma SetConserves(b: Books, owed: multiset<Ref>, k: Key, value: Value, reply: HttpReply, loc: Loc, now: Time)
    requires Balanced(b, owed) && loc !in b.cells
    ensures Balanced(SetBooks(b, k, value, reply, loc, now), owed)
  {
    if SetOutcome(reply).None? {
      InsertBalances(b, owed, k, Entry(Ref(loc, value), Stamp(0, now), now), 1, owed);
    } else {
      RemoveBalances(b, owed, k);
    }
  }

  // ------------------------------------------------------------------ sequences of calls

  /** The client at a moment between two calls. */
  datatype Moment = Moment(books: Books, hits: nat, misses: nat, now: Time)

  /** Each call with the reply its request would get and the place for a new string; eviction; the passing of time. */
  datatype Event =
    | GetCall(key: Raw, reply: HttpReply, loc: Loc)
    | SetCall(key: Raw, value: Raw, reply: HttpReply, loc: Loc)
    | ClearCall
    | Evict(entry: Key)
    | Wait(time: Time)

  /** An entry that has not expired. */
  predicate Has(ttl: Time, m: Moment, k: Key) {
    k in m.books.entries && m.now < m.books.entries[k].born + ttl
  }

  function PlayGet(ttl: Time, m: Moment, k: Key, reply: HttpReply, loc: Loc): Moment {
    var hit := Has(ttl, m, k);
    m.(books := GetBooks(m.books, k, hit, reply, loc, m.now).0,
       hits := if hit then (m.hits + 1) % WORD else m.hits,
       misses := if hit then m.misses else (m.misses + 1) % WORD)
  }

  function PlaySet(m: Moment, k: Key, value: Value, reply: HttpReply, loc: Loc): Moment {
    m.(books := SetBooks(m.books, k, value, reply, loc, m.now))
  }

  ghost function Play(ttl: Time, m: Moment, e: Event): Moment {
    match e
    case GetCall(key, reply, loc) =>
      if Decode(key).None? then m else PlayGet(ttl, m, Decode(key).value, reply, loc)
    case SetCall(key, value, reply, loc) =>
      if Decode(key).None? || Decode(value).None? then m
      else PlaySet(m, Decode(key).value, Decode(value).value, reply, loc)
    case ClearCall =>
      m.(books := Books(map[], m.books.retired + Bag(m.books.entries, EntryRefs), m.books.cells))
    case Evict(entry) => m.(books := Without(m.books, entry))
    case Wait(time) => m.(now := m.now + time)
  }

  ghost function Plays(ttl: Time, m: Moment, events: seq<Event>): Moment {
    if events == [] then m
    else Play(ttl, Plays(ttl, m, events[..|events| - 1]), events[|events| - 1])
  }

  /** A new client, whatever strings the process already has. */
  ghost predicate New(m: Moment) {
    m.books.entries == map[] && m.hits == 0 && m.misses == 0
  }

  // ------------------------------------------------------------------ the specification of one call

  /** The client without places and dates. */
  function Seen(m: Moment): Client {
    Client(Texts(m.books.entries), m.hits, m.misses)
  }

  /** What it still knows at a lookup of k: an entry of k that has expired counts for nothing. */
  function SeenAt(ttl: Time, m: Moment, k: Key): Client {
    if Has(ttl, m, k) then Seen(m) else Seen(m).(cache := Seen(m).cache - {k})
  }

  function ResponseOf(result: GetResult): Response {
    if result.code == Success && result.value.Some? then Gave(result.value.value.text) else Error(result.code)
  }

  /** The code in a KvSetResult, as the caller reads it. */
  function SetResponse(code: ErrorCode): Response {
    if code == Success then Done else Error(code)
  }

  /** The result of a get: the string of an unexpired entry, or what its request brings. */
  predicate Gets(ttl: Time, m: Moment, k: Key, reply: HttpReply, loc: Loc, result: GetResult) {
    if Has(ttl, m, k)
    then result == GetResult(Success, Some(m.books.entries[k].ref), Some(m.books.entries[k].ref))
    else Ffi.Fetched(result, reply, loc)
  }

  lemma GetFollows(ttl: Time, m: Moment, k: Key, reply: HttpReply, loc: Loc, result: GetResult)
    requires Gets(ttl, m, k, reply, loc, result)
    ensures (Seen(PlayGet(ttl, m, k, reply, loc)), ResponseOf(result)) == GetStep(SeenAt(ttl, m, k), Text(k), reply)
  {
    var text := if result.value.Some? then result.value.value.text else "";
    TextsFollow(m.books.entries, k, Entry(Ref(loc, text), Stamp(0, m.now), m.now));
    assert (Texts(m.books.entries) - {k})[k := text] == Texts(m.books.entries)[k := text];
  }

  lemma SetFollows(m: Moment, k: Key, value: Value, reply: HttpReply, loc: Loc, code: ErrorCode)
    requires SetSays(reply, code)
    ensures
      var n := PlaySet(m, k, value, reply, loc);
      (Seen(n), SetResponse(code)) == SetStep(Seen(m), Text(k), Text(value), reply)
  {
    TextsFollow(m.books.entries, k, Entry(Ref(loc, value), Stamp(0, m.now), m.now));
  }

  // ------------------------------------------------------------------ what the calls themselves say

  function Clock(start: Time, events: seq<Event>): Time {
    if events == [] then start
    else
      var last := events[|events| - 1];
      Clock(start, events[..|events| - 1]) + if last.Wait? then last.time else 0
  }

  /** A get of k that would bring this value if it asked, or a set of k to this value that succeeds. */
  predicate Teaches(e: Event, k: Key, text: Value) {
    match e
    case GetCall(key, reply, _) =>
      key == Text(k) && reply.Reply? && 200 <= reply.status < 300 && reply.body == Some(text)
    case SetCall(key, value, reply, _) =>
      key == Text(k) && value == Text(text) && reply.Reply? && 200 <= reply.status < 300
    case _ => false
  }

  /** What the client knew of k before is not what it knows after. */
  predicate Displaces(e: Event, k: Key) {
    match e
    case SetCall(key, value, _, _) => key == Text(k) && value.Text?
    case ClearCall => true
    case Evict(entry) => entry == k
    case _ => false
  }

  /** The i-th call asked the server, learned this value of k, and nothing has displaced it since. */
  ghost predicate Learned(ttl: Time, m: Moment, events: seq<Event>, i: nat, k: Key, text: Value) {
    && i < |events| && Teaches(events[i], k, text)
    && (events[i].GetCall? ==> !Has(ttl, Plays(ttl, m, events[..i]), k))
    && forall j :: i < j < |events| ==> !Displaces(events[j], k)
  }

  /** Less than the time to live has passed since the i-th call. */
  predicate Young(ttl: Time, start: Time, events: seq<Event>, i: nat)
    requires i < |events|
  {
    Clock(start, events) < Clock(start, events[..i]) + ttl
  }

  // ------------------------------------------------------------------ one call

  lemma TeachingInserts(ttl: Time, m: Moment, e: Event, k: Key, text: Value)
    requires Teaches(e, k, text) && (e.GetCall? ==> !Has(ttl, m, k))
    ensures
      var n := Play(ttl, m, e);
      k in n.books.entries && n.books.entries[k].ref.text == text && n.books.entries[k].born == m.now == n.now
  {
  }

  /** Any other call that leaves an entry of k has found it there. */
  lemma OtherwiseKeeps(ttl: Time, m: Moment, e: Event, k: Key)
    requires k in Play(ttl, m, e).books.entries
    requires forall text :: Teaches(e, k, text) ==> e.GetCall? && Has(ttl, m, k)
    ensures k in m.books.entries && Play(ttl, m, e).books.entries[k] == m.books.entries[k] && !Displaces(e, k)
  {
    if e.GetCall? && Decode(e.key).Some? && GetOutcome(e.reply).Ok? {
      assert Decode(e.key) == Some(k) ==> Teaches(e, k, GetOutcome(e.reply).value);
    } else if e.SetCall? && Decode(e.key).Some? && Decode(e.value).Some? && SetOutcome(e.reply).None? {
      assert Decode(e.key) == Some(k) ==> Teaches(e, k, Decode(e.value).value);
    }
  }

  lemma GetKeeps(ttl: Time, m: Moment, j: Key, reply: HttpReply, loc: Loc, k: Key)
    requires Has(ttl, m, k)
    ensures
      var entries := PlayGet(ttl, m, j, reply, loc).books.entries;
      k in entries && entries[k] == m.books.entries[k]
  {
  }

  lemma HasIsKept(ttl: Time, m: Moment, e: Event, k: Key)
    requires Has(ttl, m, k) && !Displaces(e, k)
    ensures k in Play(ttl, m, e).books.entries && Play(ttl, m, e).books.entries[k] == m.books.entries[k]
  {
    if e.GetCall? && Decode(e.key).Some? {
      GetKeeps(ttl, m, Decode(e.key).value, e.reply, e.loc, k);
    }
  }

  lemma NowIsClock(ttl: Time, m: Moment, events: seq<Event>)
    ensures Plays(ttl, m, events).now == Clock(m.now, events)
  {
  }

  lemma {:induction false} ClockRuns(start: Time, events: seq<Event>, i: nat)
    requires i <= |events|
    ensures Clock(start, events[..i]) <= Clock(start, events)
    decreases |events|
  {
    if i < |events| {
      ClockRuns(start, events[..|events| - 1], i);
      assert events[..|events| - 1][..i] == events[..i];
    } else {
      assert events[..i] == events;
    }
  }

  /** What a call learns can be looked up for exactly the time to live, from any moment. */
  lemma LearnedForTtl(ttl: Time, m: Moment, e: Event, k: Key, text: Value, time: Time)
    requires Teaches(e, k, text) && (e.GetCall? ==> !Has(ttl, m, k))
    ensures Has(ttl, Play(ttl, Play(ttl, m, e), Wait(time)), k) <==> time < ttl
  {
    TeachingInserts(ttl, m, e, k, text);
  }

  // ------------------------------------------------------------------ whole sequences

  lemma LearnedBefore(ttl: Time, m: Moment, events: seq<Event>, i: nat, k: Key, text: Value)
    requires i < |events| - 1
    ensures events[..|events| - 1][..i] == events[..i]
    ensures Learned(ttl, m, events, i, k, text) <==>
            Learned(ttl, m, events[..|events| - 1], i, k, text) && !Displaces(events[|events| - 1], k)
  {
    assert events[..|events| - 1][..i] == events[..i];
  }

  /** The last call asked and learned. */
  ghost predicate LearnsLast(ttl: Time, m: Moment, events: seq<Event>, k: Key, text: Value)
    requires events != []
  {
    var n := |events| - 1;
    Teaches(events[n], k, text) && (events[n].GetCall? ==> !Has(ttl, Plays(ttl, m, events[..n]), k))
  }

  lemma LastInserts(ttl: Time, m: Moment, events: seq<Event>, k: Key, text: Value)
    requires events != [] && LearnsLast(ttl, m, events, k, text)
    ensures
      var t, n := Plays(ttl, m, events), |events| - 1;
      && k in t.books.entries && t.books.entries[k].ref.text == text
      && t.books.entries[k].born == Clock(m.now, events[..n]) && Learned(ttl, m, events, n, k, text)
  {
    var n := |events| - 1;
    NowIsClock(ttl, m, events[..n]);
    TeachingInserts(ttl, Plays(ttl, m, events[..n]), events[n], k, text);
  }

  lemma LastKeeps(ttl: Time, m: Moment, events: seq<Event>, k: Key)
    requires events != [] && k in Plays(ttl, m, events).books.entries
    requires forall text :: !LearnsLast(ttl, m, events, k, text)
    ensures
      var n := |events| - 1;
      && k in Plays(ttl, m, events[..n]).books.entries && !Displaces(events[n], k)
      && Plays(ttl, m, events).books.entries[k] == Plays(ttl, m, events[..n]).books.entries[k]
  {
    var n := |events| - 1;
    forall text | Teaches(events[n], k, text) ensures events[n].GetCall? && Has(ttl, Plays(ttl, m, events[..n]), k) {
      assert !LearnsLast(ttl, m, events, k, text);
    }
    OtherwiseKeeps(ttl, Plays(ttl, m, events[..n]), events[n], k);
  }

  /** Every entry was born in this run, with the value that the call at that moment learned. */
  lemma {:induction false} EveryEntryWasLearned(ttl: Time, m: Moment, events: seq<Event>, k: Key) returns (i: nat)
    requires New(m) && k in Plays(ttl, m, events).books.entries
    ensures
      var e := Plays(ttl, m, events).books.entries[k];
      && Learned(ttl, m, events, i, k, e.ref.text)
      && m.now <= e.born == Clock(m.now, events[..i]) <= Clock(m.now, events)
    decreases |events|
  {
    var n := |events| - 1;
    if text :| LearnsLast(ttl, m, events, k, text) {
      i := n;
      LastInserts(ttl, m, events, k, text);
    } else {
      LastKeeps(ttl, m, events, k);
      i := EveryEntryWasLearned(ttl, m, events[..n], k);
      LearnedBefore(ttl, m, events, i, k, Plays(ttl, m, events).books.entries[k].ref.text);
    }
    ClockRuns(m.now, events, i);
    ClockRuns(m.now, events[..i], 0);
  }

  /** What was learned stays known for the time to live, unless it is displaced. */
  lemma {:induction false} LearnedIsKept(ttl: Time, m: Moment, events: seq<Event>, i: nat, k: Key, text: Value)
    requires Learned(ttl, m, events, i, k, text) && Young(ttl, m.now, events, i)
    ensures
      var t := Plays(ttl, m, events);
      Has(ttl, t, k) && t.books.entries[k].ref.text == text && t.books.entries[k].born == Clock(m.now, events[..i])
    decreases |events|
  {
    var n := |events| - 1;
    NowIsClock(ttl, m, events);
    if i == n {
      LastInserts(ttl, m, events, k, text);
    } else {
      LearnedBefore(ttl, m, events, i, k, text);
      ClockRuns(m.now, events, n);
      LearnedIsKept(ttl, m, events[..n], i, k, text);
      HasIsKept(ttl, Plays(ttl, m, events[..n]), events[n], k);
    }
  }

  /**
   After any calls, a get of k is a hit if and only if less than the time to live ago some call learned a value
   of k that nothing has displaced, and then it gives that value. Otherwise it gives what its own reply brings.
   */
  lemma {:induction false} HitIffLearned(ttl: Time, m: Moment, events: seq<Event>, k: Key, reply: HttpReply, loc: Loc)
    requires New(m)
    ensures
      var t := Plays(ttl, m, events);
      var arc := GetBooks(t.books, k, Has(ttl, t, k), reply, loc, t.now).1;
      && (Has(ttl, t, k) <==>
            exists i: nat, text :: Learned(ttl, m, events, i, k, text) && Young(ttl, m.now, events, i))
      && (forall i: nat, text :: Learned(ttl, m, events, i, k, text) && Young(ttl, m.now, events, i) ==>
            arc.Some? && arc.value.text == text)
      && (!Has(ttl, t, k) ==>
            if arc.Some? then Teaches(GetCall(Text(k), reply, loc), k, arc.value.text)
            else forall text :: !Teaches(GetCall(Text(k), reply, loc), k, text))
  {
    var t := Plays(ttl, m, events);
    if Has(ttl, t, k) {
      var i := EveryEntryWasLearned(ttl, m, events, k);
      NowIsClock(ttl, m, events);
    }
    forall i: nat, text | Learned(ttl, m, events, i, k, text) && Young(ttl, m.now, events, i)
      ensures Has(ttl, t, k) && t.books.entries[k].ref.text == text
    {
      LearnedIsKept(ttl, m, events, i, k, text);
    }
  }

  // ------------------------------------------------------------------ the counters

  /** The last call looked up a key. */
  predicate LooksLast(events: seq<Event>) {
    events != [] && var last := events[|events| - 1]; last.GetCall? && last.key.Text?
  }

  ghost predicate HitsLast(ttl: Time, m: Moment, events: seq<Event>) {
    && LooksLast(events)
    && Has(ttl, Plays(ttl, m, events[..|events| - 1]), events[|events| - 1].key.text)
  }

  function Lookups(events: seq<Event>): nat {
    if events == [] then 0
    else Lookups(events[..|events| - 1]) + if LooksLast(events) then 1 else 0
  }

  ghost function Hits(ttl: Time, m: Moment, events: seq<Event>): nat {
    if events == [] then 0
    else Hits(ttl, m, events[..|events| - 1]) + if HitsLast(ttl, m, events) then 1 else 0
  }

  predicate Tallied(hits: nat, misses: nat, h: nat, lookups: nat) {
    h <= lookups && hits == h % WORD && misses == (lookups - h) % WORD
  }

  lemma OneMoreLookup(hits: nat, misses: nat, h: nat, lookups: nat)
    requires Tallied(hits, misses, h, lookups)
    ensures Tallied((hits + 1) % WORD, misses, h + 1, lookups + 1)
    ensures Tallied(hits, (misses + 1) % WORD, h, lookups + 1)
  {
    Counters.NextWord(hits, h);
    Counters.NextWord(misses, lookups - h);
    assert (lookups + 1) - (h + 1) == lookups - h;
  }

  /** Every lookup moves one counter. */
  lemma PlayTallies(ttl: Time, m: Moment, e: Event, h: nat, lookups: nat)
    requires Tallied(m.hits, m.misses, h, lookups)
    ensures
      var n, looks := Play(ttl, m, e), e.GetCall? && e.key.Text?;
      Tallied(n.hits, n.misses, if looks && Has(ttl, m, e.key.text) then h + 1 else h,
              if looks then lookups + 1 else lookups)
  {
    OneMoreLookup(m.hits, m.misses, h, lookups);
  }

  lemma {:induction false} CountersAreCounts(ttl: Time, m: Moment, events: seq<Event>)
    requires New(m)
    ensures
      var t := Plays(ttl, m, events);
      Tallied(t.hits, t.misses, Hits(ttl, m, events), Lookups(events))
    decreases |events|
  {
    if events != [] {
      var before := events[..|events| - 1];
      CountersAreCounts(ttl, m, before);
      PlayTallies(ttl, Plays(ttl, m, before), events[|events| - 1], Hits(ttl, m, before), Lookups(before));
    }
  }

  lemma TallyAddsUp(hits: nat, misses: nat, h: nat, lookups: nat)
    requires Tallied(hits, misses, h, lookups)
    ensures Counters.AddUp(hits, misses, lookups, lookups - h)
  {
    Counters.WrappedSum(h, lookups - h);
  }

  /** After any calls, the counters are the numbers of gets that hit and of gets that missed. */
  lemma {:induction false} StatsAreCounts(ttl: Time, m: Moment, events: seq<Event>)
    requires New(m)
    ensures
      var t, hits, lookups := Plays(ttl, m, events), Hits(ttl, m, events), Lookups(events);
      hits <= lookups && Counters.AddUp(t.hits, t.misses, lookups, lookups - hits)
  {
    CountersAreCounts(ttl, m, events);
    var t := Plays(ttl, m, events);
    TallyAddsUp(t.hits, t.misses, Hits(ttl, m, events), Lookups(events));
  }
}
