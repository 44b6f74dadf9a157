// Every value in the system was the server's value when its stamp says so; hence how old a value can be.
module Staleness {
  import opened Common
  import opened Http
  import opened Versions
  import opened Machine
  import opened Calls

  /** Version n of k had value v, and was in force at instant t. */
  ghost predicate InForce(h: History, k: Key, n: nat, v: Option<Value>, t: Time) {
    && n < |VersionsOf(h, k)|
    && VersionsOf(h, k)[n].value == v
    && VersionsOf(h, k)[n].since <= t
    && (n + 1 < |VersionsOf(h, k)| ==> t <= VersionsOf(h, k)[n + 1].since)
  }

  lemma WriteKeepsInForce(h: History, j: Key, w: Option<Value>, now: Time, k: Key, n: nat, v: Option<Value>, t: Time)
    requires InForce(h, k, n, v, t) && t <= now
    ensures InForce(Write(h, j, w, now), k, n, v, t)
  {
    WriteAppends(h, j, w, now);
  }

  /** What a call that carries a stamp says its key held at that stamp. */
  function Learned(op: Op): Option<Value> {
    match op.call
    case Set(_, value) => Decode(value)
    case Get(_) =>
      match op.phase
      case Returning(Found(ref)) => Some(ref.text)
      case Finished(Found(ref)) => Some(ref.text)
      case _ => if op.reply.Some? && op.reply.value.Reply? then op.reply.value.body else None
  }

  ghost predicate TrueEntry(h: History, now: Time, k: Key, e: Entry) {
    && InForce(h, k, e.stamp.version, Some(e.ref.text), e.stamp.access)
    && e.stamp.access <= e.born <= now
  }

  ghost predicate TrueOp(h: History, now: Time, op: Op) {
    op.stamp.Some? ==>
      && KeyOf(op.call).Some? && !op.phase.Entered?
      && op.stamp.value.access <= now
      && InForce(h, KeyOf(op.call).value, op.stamp.value.version, Learned(op), op.stamp.value.access)
  }

  /** The dates of a call are in order, and a hit met an entry that had not expired. */
  predicate Timed(ttl: Time, now: Time, op: Op) {
    && op.looked <= now
    && (op.stamp.Some? && !op.asked ==> op.stamp.value.access <= op.born <= op.looked < op.born + ttl)
  }

  ghost predicate Truth(s: State) {
    && Chronological(s.history, s.now)
    && (forall k :: k in s.cache ==> TrueEntry(s.history, s.now, k, s.cache[k]))
    && (forall id :: id in s.ops ==> TrueOp(s.history, s.now, s.ops[id]))
  }

  ghost predicate AllTimed(s: State) {
    forall id :: id in s.ops ==> Timed(s.cfg.ttl, s.now, s.ops[id])
  }

  /** Writes make no past truth false. */
  lemma WriteKeepsTruth(s: State, k: Key, v: Option<Value>)
    requires Truth(s)
    ensures Truth(s.(history := Write(s.history, k, v, s.now)))
  {
    WriteKeepsOrder(s.history, k, v, s.now);
    forall j | j in s.cache ensures TrueEntry(Write(s.history, k, v, s.now), s.now, j, s.cache[j]) {
      var e := s.cache[j];
      WriteKeepsInForce(s.history, k, v, s.now, j, e.stamp.version, Some(e.ref.text), e.stamp.access);
    }
    forall id | id in s.ops ensures TrueOp(Write(s.history, k, v, s.now), s.now, s.ops[id]) {
      var op := s.ops[id];
      if op.stamp.Some? {
        WriteKeepsInForce(s.history, k, v, s.now, KeyOf(op.call).value, op.stamp.value.version, Learned(op),
                          op.stamp.value.access);
      }
    }
  }

  lemma CurrentIsInForce(h: History, k: Key, now: Time)
    requires Chronological(h, now)
    ensures InForce(h, k, Latest(h, k), Current(h, k), now)
  {
  }

  lemma ServePutKeepsTruth(s: State, id: OpId)
    requires AllFit(s) && Truth(s) && CanServePut(s, id)
    ensures Truth(DoServePut(s, id))
  {
    var k, v := KeyOf(s.ops[id].call).value, Decode(s.ops[id].call.value);
    WriteKeepsTruth(s, k, v);
    WriteAppends(s.history, k, v, s.now);
    CurrentIsInForce(DoServePut(s, id).history, k, s.now);
  }

  lemma ServeGetKeepsTruth(s: State, id: OpId)
    requires AllFit(s) && Truth(s) && Enabled(s, ServeGet(id))
    ensures Truth(DoServeGet(s, id))
  {
    CurrentIsInForce(s.history, KeyOf(s.ops[id].call).value, s.now);
  }

  lemma ValueKeepsTruth(s: State, id: OpId, reply: HttpReply, loc: Loc)
    requires AllFit(s) && Truth(s) && Enabled(s, GotValue(id, reply, loc))
    ensures Truth(DoGotValue(s, id, reply, loc))
  {
    assert Fits(s.ops[id]) && s.ops[id].reply == Some(reply);
  }

  lemma StoredKeepsTruth(s: State, id: OpId, reply: HttpReply, loc: Loc)
    requires AllFit(s) && Truth(s) && Enabled(s, GotStored(id, reply, loc))
    ensures Truth(DoGotStored(s, id, reply, loc))
  {
    assert Fits(s.ops[id]) && s.ops[id].reply == Some(reply);
  }

  /** The steps that read and write no server. */
  lemma ClientStepKeepsTruth(s: State, step: Step)
    requires AllFit(s) && Truth(s) && Enabled(s, step)
    requires step.Begin? || LooksUp(step) || step.GotFailure? || step.Finish?
    ensures Truth(Apply(s, step))
  {
    var t := Apply(s, step);
    ClientStepIsTrue(s, step, t);
  }

  lemma ClientStepIsTrue(s: State, step: Step, t: State)
    requires AllFit(s) && Truth(s) && Enabled(s, step) && t == Apply(s, step)
    requires step.Begin? || LooksUp(step) || step.GotFailure? || step.Finish?
    ensures step.id in t.ops && TrueOp(t.history, t.now, t.ops[step.id])
  {
    if step.Finish? || step.GotFailure? {
      EndIsTrue(s, step, t);
    } else if step.id in s.ops {
      assert Fits(s.ops[step.id]);
    }
  }

  lemma EndIsTrue(s: State, step: Step, t: State)
    requires AllFit(s) && Truth(s) && Enabled(s, step) && t == Apply(s, step) && (step.GotFailure? || step.Finish?)
    ensures step.id in t.ops && TrueOp(t.history, t.now, t.ops[step.id])
  {
    assert Fits(s.ops[step.id]) && TrueOp(s.history, s.now, s.ops[step.id]);
  }

  lemma QuietStepKeepsTruth(s: State, step: Step)
    requires Truth(s) && Enabled(s, step)
    requires !step.ForeignPut? && !step.ForeignDelete? && !step.Begin? && !CallStep(step)
    ensures Truth(Apply(s, step))
  {
  }

  lemma ServerStepKeepsTruth(s: State, step: Step)
    requires AllFit(s) && Truth(s) && Enabled(s, step)
    requires step.ForeignPut? || step.ForeignDelete? || step.ServeGet? || step.ServePut?
    ensures Truth(Apply(s, step))
  {
    match step
    case ForeignPut(key, value) => WriteKeepsTruth(s, key, Some(value));
    case ForeignDelete(key) => WriteKeepsTruth(s, key, None);
    case ServeGet(id) => ServeGetKeepsTruth(s, id);
    case ServePut(id) => ServePutKeepsTruth(s, id);
  }

  lemma StepKeepsTruth(s: State, step: Step)
    requires AllFit(s) && Truth(s) && Enabled(s, step)
    ensures Truth(Apply(s, step))
  {
    if step.ForeignPut? || step.ForeignDelete? || step.ServeGet? || step.ServePut? {
      ServerStepKeepsTruth(s, step);
    } else if step.GotValue? {
      ValueKeepsTruth(s, step.id, step.reply, step.loc);
    } else if step.GotStored? {
      StoredKeepsTruth(s, step.id, step.reply, step.loc);
    } else if CallStep(step) || step.Begin? {
      ClientStepKeepsTruth(s, step);
    } else {
      QuietStepKeepsTruth(s, step);
    }
  }

  lemma StepKeepsTime(s: State, step: Step)
    requires AllFit(s) && Truth(s) && AllTimed(s) && Enabled(s, step)
    ensures AllTimed(Apply(s, step))
  {
    if CallStep(step) && !step.Finish? {
      CallKeepsTime(s, step, Apply(s, step));
    } else {
      OtherStepKeepsTime(s, step);
    }
  }

  lemma CallKeepsTime(s: State, step: Step, t: State)
    requires AllFit(s) && Truth(s) && AllTimed(s) && Enabled(s, step) && CallStep(step) && !step.Finish?
    requires t == Apply(s, step)
    ensures AllTimed(t)
  {
    CallContinues(s, step, t);
    CallIsTimed(s, step, t);
  }

  lemma CallIsTimed(s: State, step: Step, t: State)
    requires AllFit(s) && Truth(s) && AllTimed(s) && Enabled(s, step) && CallStep(step) && !step.Finish?
    requires t == Apply(s, step)
    ensures step.id in t.ops && t.cfg == s.cfg && t.now == s.now && Timed(t.cfg.ttl, t.now, t.ops[step.id])
  {
    if LooksUp(step) {
      LookupIsTimed(s, step, t);
    } else {
      assert Fits(s.ops[step.id]) && Timed(s.cfg.ttl, s.now, s.ops[step.id]);
    }
  }

  lemma LookupIsTimed(s: State, step: Step, t: State)
    requires AllFit(s) && Truth(s) && AllTimed(s) && Enabled(s, step) && LooksUp(step) && t == Apply(s, step)
    ensures step.id in t.ops && t.cfg == s.cfg && t.now == s.now && Timed(t.cfg.ttl, t.now, t.ops[step.id])
  {
    assert Fits(s.ops[step.id]) && TrueOp(s.history, s.now, s.ops[step.id]);
  }

  lemma OtherStepKeepsTime(s: State, step: Step)
    requires AllFit(s) && Truth(s) && AllTimed(s) && Enabled(s, step) && (CallStep(step) ==> step.Finish?)
    ensures AllTimed(Apply(s, step))
  {
  }

  lemma {:induction false} TruthAlways(d: Discipline, s: State, steps: seq<Step>)
    requires Init(s) && Run(d, s, steps)
    ensures AllFit(After(s, steps)) && Truth(After(s, steps)) && AllTimed(After(s, steps))
    decreases |steps|
  {
    if steps != [] {
      var n := |steps| - 1;
      TruthAlways(d, s, steps[..n]);
      StepKeepsFit(After(s, steps[..n]), steps[n]);
      StepKeepsTruth(After(s, steps[..n]), steps[n]);
      StepKeepsTime(After(s, steps[..n]), steps[n]);
    }
  }

  /** A get that is about to report what the server holds, or that it holds nothing. */
  predicate Reports(op: Op, v: Option<Value>) {
    && op.call.Get? && KeyOf(op.call).Some?
    && match op.phase
       case Returning(Found(ref)) => v == Some(ref.text)
       case Returning(Failed(KeyNotFound)) => v == None
       case _ => false
  }

  /**
   The time a get's value spends on the way: from the server to the cache and then from the lookup to the
   caller for a hit, from the server to the caller otherwise.
   */
  function Transit(op: Op, now: Time): int {
    var access: int := op.stamp.GetOr(Stamp(0, 0)).access;
    if op.asked then now as int - access else (op.born as int - access) + (now as int - op.looked)
  }

  /**
   What a get reports at time t was true of exactly its key at some instant in [t - ttl - D, t], whoever else
   writes and however calls interleave, if its transit has taken at most D by then.
   */
  lemma {:induction false} BoundedStaleness(d: Discipline, s: State, steps: seq<Step>, id: OpId, v: Option<Value>,
                                            D: Time)
    requires Init(s) && Run(d, s, steps)
    requires id in After(s, steps).ops && Reports(After(s, steps).ops[id], v)
    requires Transit(After(s, steps).ops[id], After(s, steps).now) <= D
    ensures
      var t := After(s, steps);
      var op := t.ops[id];
      exists n: nat, at: Time ::
        && InForce(t.history, KeyOf(op.call).value, n, v, at)
        && at <= t.now <= at + t.cfg.ttl + D
        && (op.asked ==> t.now <= at + D)
  {
    TruthAlways(d, s, steps);
    var t := After(s, steps);
    var op := t.ops[id];
    assert Fits(op) && TrueOp(t.history, t.now, op) && Timed(t.cfg.ttl, t.now, op);
    assert InForce(t.history, KeyOf(op.call).value, op.stamp.value.version, v, op.stamp.value.access);
  }
}
