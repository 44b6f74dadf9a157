// How long an entry serves: exactly the time to live, unless something displaces it (core-sdk/src/cache.rs).
module Expiry {
  import opened Common
  import opened Http
  import opened Machine
  import Lifecycle

  /** What the client knew of k before this step is not what it knows after. */
  predicate Displaces(t: State, step: Step, k: Key) {
    match step
    case Remove(key) => key == k
    case Clear => true
    case GotValue(id, _, _) => id in t.ops && t.ops[id].call.key == Text(k)
    case GotStored(id, _, _) => id in t.ops && t.ops[id].call.key == Text(k)
    case GotFailure(id, _) => id in t.ops && t.ops[id].call.Set? && t.ops[id].call.key == Text(k)
    case _ => false
  }

  ghost predicate Undisturbed(u: State, rest: seq<Step>, k: Key)
    decreases |rest|
  {
    rest == [] ||
    var n := |rest| - 1;
    Undisturbed(u, rest[..n], k) && !Displaces(After(u, rest[..n]), rest[n], k)
  }

  /** A client that has not been destroyed still has this entry of k, or a lookup has met it expired. */
  ghost predicate Kept(t: State, ttl: Time, k: Key, e: Entry) {
    && t.cfg.ttl == ttl
    && (t.box ==> if k in t.cache then t.cache[k] == e else e.born + ttl <= t.now)
  }

  lemma LookupKeeps(t: State, step: Step, ttl: Time, k: Key, e: Entry)
    requires Kept(t, ttl, k, e) && Enabled(t, step) && (step.Miss? || step.Finish? || step.Destroy?)
    requires Apply(t, step).box ==> StoreAlive(Apply(t, step))
    ensures Kept(Apply(t, step), ttl, k, e)
  {
  }

  lemma OtherStepKeeps(t: State, step: Step, ttl: Time, k: Key, e: Entry)
    requires Kept(t, ttl, k, e) && Enabled(t, step) && !step.Miss? && !step.Finish? && !step.Destroy?
    requires !Displaces(t, step, k)
    ensures Kept(Apply(t, step), ttl, k, e)
  {
  }

  lemma StepKeepsConfig(t: State, step: Step)
    requires Enabled(t, step)
    ensures Apply(t, step).cfg == t.cfg
  {
  }

  lemma {:induction false} SameConfig(s: State, steps: seq<Step>)
    ensures After(s, steps).cfg == s.cfg
    decreases |steps|
  {
    if steps != [] {
      var n := |steps| - 1;
      SameConfig(s, steps[..n]);
      if Enabled(After(s, steps[..n]), steps[n]) {
        StepKeepsConfig(After(s, steps[..n]), steps[n]);
      }
    }
  }

  lemma BoxMeansAlive(t: State)
    requires Lifecycle.Inv(t) && t.box
    ensures StoreAlive(t)
  {
  }

  lemma {:induction false} KeptThroughout(d: Discipline, u: State, rest: seq<Step>, ttl: Time, k: Key, e: Entry)
    requires Lifecycle.Inv(u) && Kept(u, ttl, k, e) && Run(d, u, rest) && Undisturbed(u, rest, k)
    ensures Lifecycle.Inv(After(u, rest)) && Kept(After(u, rest), ttl, k, e)
    decreases |rest|
  {
    if rest != [] {
      var n := |rest| - 1;
      KeptThroughout(d, u, rest[..n], ttl, k, e);
      var t, step := After(u, rest[..n]), rest[n];
      Lifecycle.StepKeepsInv(t, step);
      if step.Miss? || step.Finish? || step.Destroy? {
        if Apply(t, step).box {
          BoxMeansAlive(Apply(t, step));
        }
        LookupKeeps(t, step, ttl, k, e);
      } else {
        OtherStepKeeps(t, step, ttl, k, e);
      }
    }
  }

  /** The value that an insertion puts in the cache. */
  function Inserted(call: Call, reply: HttpReply): Option<Value> {
    if call.Set? then (if call.value.Text? then Some(call.value.text) else None)
    else if reply.Reply? then reply.body
    else None
  }

  lemma InsertionIsKept(t: State, step: Step, k: Key)
    requires Enabled(t, step) && (step.GotValue? || step.GotStored?) && t.ops[step.id].call.key == Text(k)
    ensures
      var u := Apply(t, step);
      && k in u.cache && Kept(u, t.cfg.ttl, k, u.cache[k]) && u.cache[k].born == t.now
      && Inserted(t.ops[step.id].call, step.reply) == Some(u.cache[k].ref.text) && u.cache[k].ref.loc == step.loc
  {
  }

  /**
   In every run: once a reply has put a value in the cache, and as long as nothing displaces it, a get of its key
   hits if and only if less than the time to live has passed, and finds that very string. Otherwise it misses.
   */
  lemma {:induction false} HitIffYoung(d: Discipline, s: State, steps: seq<Step>, before: State, step: Step,
                                       rest: seq<Step>, t: State, k: Key, id: OpId)
    requires Init(s) && Run(d, s, steps) && before == After(s, steps)
    requires Enabled(before, step) && (step.GotValue? || step.GotStored?) && before.ops[step.id].call.key == Text(k)
    requires Run(d, Apply(before, step), rest) && t == After(Apply(before, step), rest)
    requires Undisturbed(Apply(before, step), rest, k)
    requires Entering(t, id) && t.ops[id].call == Get(Text(k))
    ensures Enabled(t, Hit(id)) <==> t.now < before.now + s.cfg.ttl
    ensures Enabled(t, Miss(id)) <==> before.now + s.cfg.ttl <= t.now
    ensures Enabled(t, Hit(id)) ==>
              var text := Inserted(before.ops[step.id].call, step.reply);
              text.Some? && DoHit(t, id).ops[id].phase == Returning(Found(Ref(step.loc, text.value)))
  {
    SameConfig(s, steps);
    var u := Apply(before, step);
    Lifecycle.NoUseAfterDestroy(d, s, steps);
    Lifecycle.StepKeepsInv(before, step);
    InsertionIsKept(before, step, k);
    KeptThroughout(d, u, rest, before.cfg.ttl, k, u.cache[k]);
    LooksYoung(t, id, before.cfg.ttl, k, u.cache[k]);
  }

  lemma LooksYoung(t: State, id: OpId, ttl: Time, k: Key, e: Entry)
    requires Lifecycle.Inv(t) && Kept(t, ttl, k, e) && Entering(t, id) && t.ops[id].call == Get(Text(k))
    ensures Enabled(t, Hit(id)) <==> t.now < e.born + ttl
    ensures Enabled(t, Miss(id)) <==> e.born + ttl <= t.now
    ensures Enabled(t, Hit(id)) ==> DoHit(t, id).ops[id].phase == Returning(Found(e.ref))
  {
    assert UsesBox(t.cfg, t.ops[id]);
  }
}
