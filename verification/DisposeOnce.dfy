// Dispose of the synchronous C# client (bindings/csharp/KvStore/KvStoreClient.cs), called by any threads at once.
module DisposeOnce {
  import opened Common

  type Thread = nat

  /** Where a thread stands in Dispose. Skipped: it saw the flag without taking the lock. */
  datatype Pc = Outside | Wanting | Locked | Passed | Flagged | Destroyed | Unlocking | Returned | Skipped

  datatype State = State(pcs: map<Thread, Pc>, holder: Option<Thread>, disposed: bool, handleLive: bool, destroys: nat)

  datatype Step =
    | TestUnlocked(t: Thread)
    | Lock(t: Thread)
    | Retest(t: Thread)
    | SetFlag(t: Thread)
    | Destroy(t: Thread)
    | ZeroHandle(t: Thread)
    | Unlock(t: Thread)

  predicate At(s: State, t: Thread, pc: Pc) {
    t in s.pcs && s.pcs[t] == pc
  }

  predicate Enabled(s: State, step: Step) {
    match step
    case TestUnlocked(t) => At(s, t, Outside)
    case Lock(t) => At(s, t, Wanting) && s.holder == None
    case Retest(t) => At(s, t, Locked)
    case SetFlag(t) => At(s, t, Passed)
    case Destroy(t) => At(s, t, Flagged)
    case ZeroHandle(t) => At(s, t, Destroyed)
    case Unlock(t) => At(s, t, Unlocking)
  }

  function Apply(s: State, step: Step): State
    requires Enabled(s, step)
  {
    match step
    case TestUnlocked(t) => s.(pcs := s.pcs[t := if s.disposed then Skipped else Wanting])
    case Lock(t) => s.(pcs := s.pcs[t := Locked], holder := Some(t))
    case Retest(t) => s.(pcs := s.pcs[t := if s.disposed then Unlocking else Passed])
    case SetFlag(t) => s.(pcs := s.pcs[t := Flagged], disposed := true)
    case Destroy(t) =>
      if s.handleLive then s.(pcs := s.pcs[t := Destroyed], destroys := s.destroys + 1)
      else s.(pcs := s.pcs[t := Unlocking])
    case ZeroHandle(t) => s.(pcs := s.pcs[t := Unlocking], handleLive := false)
    case Unlock(t) => s.(pcs := s.pcs[t := Returned], holder := None)
  }

  /** Any set of threads may call, on a client that was constructed and not yet disposed. */
  ghost predicate Init(s: State) {
    && (forall t :: t in s.pcs ==> s.pcs[t] == Outside)
    && s.holder == None && !s.disposed && s.handleLive && s.destroys == 0
  }

  ghost predicate Run(s: State, steps: seq<Step>)
    decreases |steps|
  {
    steps == [] ||
    var n := |steps| - 1;
    Run(s, steps[..n]) && Enabled(After(s, steps[..n]), steps[n])
  }

  ghost function After(s: State, steps: seq<Step>): State
    decreases |steps|
  {
    if steps == [] then s
    else
      var n := |steps| - 1;
      var t := After(s, steps[..n]);
      if Enabled(t, steps[n]) then Apply(t, steps[n]) else t
  }

  predicate InLock(pc: Pc) {
    pc.Locked? || pc.Passed? || pc.Flagged? || pc.Destroyed? || pc.Unlocking?
  }

  /** One thread in the lock at a time, and the flag, the handle and the count in step with where it is. */
  ghost predicate Inv(s: State) {
    && (forall t :: t in s.pcs && InLock(s.pcs[t]) ==> s.holder == Some(t))
    && (s.holder.Some? ==> s.holder.value in s.pcs && InLock(s.pcs[s.holder.value]))
    && (forall t :: At(s, t, Passed) ==> !s.disposed)
    && (forall t :: At(s, t, Flagged) ==> s.disposed && s.destroys == 0 && s.handleLive)
    && (forall t :: At(s, t, Destroyed) ==> s.disposed && s.destroys == 1)
    && (forall t :: At(s, t, Unlocking) || At(s, t, Returned) ==> s.disposed && s.destroys == 1 && !s.handleLive)
    && (!s.disposed ==> s.destroys == 0 && s.handleLive)
    && (s.disposed && (s.holder.Some? ==> !At(s, s.holder.value, Flagged) && !At(s, s.holder.value, Destroyed)) ==>
          s.destroys == 1 && !s.handleLive)
    && s.destroys <= 1
  }

  lemma StepKeepsInv(s: State, step: Step)
    requires Inv(s) && Enabled(s, step)
    ensures Inv(Apply(s, step))
  {
    var q := Apply(s, step);
    forall t, pc | t != step.t ensures At(q, t, pc) <==> At(s, t, pc) {
    }
    assert At(q, step.t, q.pcs[step.t]) && At(s, step.t, s.pcs[step.t]);
  }

  lemma {:induction false} InvAlways(s: State, steps: seq<Step>)
    requires Init(s) && Run(s, steps)
    ensures Inv(After(s, steps))
    decreases |steps|
  {
    if steps != [] {
      var n := |steps| - 1;
      InvAlways(s, steps[..n]);
      StepKeepsInv(After(s, steps[..n]), steps[n]);
    }
  }

  /** The native client is destroyed at most once, and exactly once if any Dispose has returned from the lock. */
  lemma {:induction false} DestroyedOnce(s: State, steps: seq<Step>)
    requires Init(s) && Run(s, steps)
    ensures After(s, steps).destroys <= 1
    ensures (exists t :: At(After(s, steps), t, Returned)) ==> After(s, steps).destroys == 1
  {
    InvAlways(s, steps);
  }
}
