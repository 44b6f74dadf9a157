// One get of an asynchronous C# client that is alone, from its first step to its last.
module CsOneCall {
  import opened Common
  import opened CsAsync

  /** The steps that the call itself takes, in order. */
  function StepAt(id: CallId, gc: GcHandle, r: NativeRef, n: nat): Step
    requires n < 11
  {
    match n
    case 0 => Create(id, true)
    case 1 => Number(id)
    case 2 => Alloc(id, gc)
    case 3 => Track(id)
    case 4 => Read(id)
    case 5 => CallNative(id)
    case 6 => Callback(id, NativeResult(true, Some(r)))
    case 7 => Unregister(id)
    case 8 => Settle(id)
    case 9 => Untrack(id)
    case _ => Free(id)
  }

  /** The first n of them; its token may fire while its native call runs. */
  function StepsOf(id: CallId, gc: GcHandle, r: NativeRef, cancelled: bool, n: nat): seq<Step>
    requires n <= 11
  {
    if n == 0 then []
    else
      StepsOf(id, gc, r, cancelled, n - 1) + [StepAt(id, gc, r, n - 1)]
      + if cancelled && n == 6 then [Cancel(id)] else []
  }

  function StageAt(n: nat): Stage
    requires 0 < n <= 11
  {
    match n
    case 1 => Created
    case 2 => Numbered
    case 3 => Allocated
    case 4 => Tracked
    case 5 => Reading
    case 6 => Due
    case 7 => Called
    case 8 => Unregistered
    case 9 => Settled
    case 10 => Untracked
    case _ => Freed
  }

  function OpAt(gc: GcHandle, r: NativeRef, cancelled: bool, n: nat): Op
    requires 0 < n <= 11
  {
    Op(true, StageAt(n), if n < 2 then 0 else 1, if n < 3 then 0 else gc, n >= 5,
       if n < 7 then NativeResult(false, None) else NativeResult(true, Some(r)),
       if cancelled && n >= 6 then Cancelled else if n < 9 then Waiting else Completed,
       cancelled && n >= 6, false,
       if cancelled && n >= 6 then (if n < 9 then [ByCancel] else [ByCancel, ByCallback])
       else if n < 9 then [] else [ByCallback])
  }

  /** Where those steps lead. */
  function StateAt(id: CallId, gc: GcHandle, r: NativeRef, cancelled: bool, n: nat): State
    requires n <= 11
  {
    State(if n == 0 then map[] else map[id := OpAt(gc, r, cancelled, n)], if n < 2 then 0 else 1,
          if 3 <= n < 11 then map[gc := id] else map[], if 4 <= n < 10 then map[1 := gc] else map[], Open,
          if n < 7 then multiset{} else multiset{r}, multiset{}, false, false)
  }

  lemma {:induction false} OneCallRuns(s: State, id: CallId, gc: GcHandle, r: NativeRef, cancelled: bool, n: nat)
    requires Init(s) && n <= 11
    ensures Run(true, s, StepsOf(id, gc, r, cancelled, n))
    ensures After(s, StepsOf(id, gc, r, cancelled, n)) == StateAt(id, gc, r, cancelled, n)
  {
    if n > 0 {
      OneCallRuns(s, id, gc, r, cancelled, n - 1);
      OneStepAdvances(id, gc, r, cancelled, n - 1);
      var steps := Extend(true, s, StepsOf(id, gc, r, cancelled, n - 1), StepAt(id, gc, r, n - 1));
      if cancelled && n == 6 {
        TokenFires(id, gc, r);
        steps := Extend(true, s, steps, Cancel(id));
      }
      assert steps == StepsOf(id, gc, r, cancelled, n);
    }
  }

  lemma OneStepAdvances(id: CallId, gc: GcHandle, r: NativeRef, cancelled: bool, m: nat)
    requires m < 11
    ensures Enabled(StateAt(id, gc, r, cancelled, m), StepAt(id, gc, r, m)) && !StepAt(id, gc, r, m).BeginDispose?
    ensures Apply(StateAt(id, gc, r, cancelled, m), StepAt(id, gc, r, m))
              == StateAt(id, gc, r, cancelled && m != 5, m + 1)
  {
    if m < 3 {
      CallBegins(id, gc, r, cancelled, m);
    } else if m < 6 {
      CallAdvances(id, gc, r, cancelled, m);
    } else if m == 6 {
      CallbackComes(id, gc, r, cancelled);
    } else if m < 9 {
      CallbackAdvances(id, gc, r, cancelled, m);
    } else {
      EndAdvances(id, gc, r, cancelled, m);
    }
  }

  lemma CallBegins(id: CallId, gc: GcHandle, r: NativeRef, cancelled: bool, n: nat)
    requires n < 3
    ensures Enabled(StateAt(id, gc, r, cancelled, n), StepAt(id, gc, r, n))
    ensures Apply(StateAt(id, gc, r, cancelled, n), StepAt(id, gc, r, n)) == StateAt(id, gc, r, cancelled, n + 1)
  {
  }

  lemma CallAdvances(id: CallId, gc: GcHandle, r: NativeRef, cancelled: bool, n: nat)
    requires 3 <= n < 6
    ensures Enabled(StateAt(id, gc, r, cancelled, n), StepAt(id, gc, r, n))
    ensures Apply(StateAt(id, gc, r, cancelled, n), StepAt(id, gc, r, n))
              == StateAt(id, gc, r, cancelled && n < 5, n + 1)
  {
  }

  lemma TokenFires(id: CallId, gc: GcHandle, r: NativeRef)
    ensures Enabled(StateAt(id, gc, r, false, 6), Cancel(id))
    ensures Apply(StateAt(id, gc, r, false, 6), Cancel(id)) == StateAt(id, gc, r, true, 6)
  {
    assert OpAt(gc, r, false, 6).attempts + [ByCancel] == OpAt(gc, r, true, 6).attempts;
  }

  lemma CallbackComes(id: CallId, gc: GcHandle, r: NativeRef, cancelled: bool)
    ensures Enabled(StateAt(id, gc, r, cancelled, 6), StepAt(id, gc, r, 6))
    ensures Apply(StateAt(id, gc, r, cancelled, 6), StepAt(id, gc, r, 6)) == StateAt(id, gc, r, cancelled, 7)
  {
    assert multiset{} + multiset{r} == multiset{r};
  }

  lemma CallbackAdvances(id: CallId, gc: GcHandle, r: NativeRef, cancelled: bool, n: nat)
    requires 7 <= n < 9
    ensures Enabled(StateAt(id, gc, r, cancelled, n), StepAt(id, gc, r, n))
    ensures Apply(StateAt(id, gc, r, cancelled, n), StepAt(id, gc, r, n)) == StateAt(id, gc, r, cancelled, n + 1)
  {
    assert OpAt(gc, r, cancelled, n).attempts + [ByCallback] == OpAt(gc, r, cancelled, 9).attempts;
  }

  lemma EndAdvances(id: CallId, gc: GcHandle, r: NativeRef, cancelled: bool, n: nat)
    requires 9 <= n < 11
    ensures Enabled(StateAt(id, gc, r, cancelled, n), StepAt(id, gc, r, n))
    ensures Apply(StateAt(id, gc, r, cancelled, n), StepAt(id, gc, r, n)) == StateAt(id, gc, r, cancelled, n + 1)
  {
    assert map[gc := id] - {gc} == map[] && map[1 := gc] - {1} == map[];
  }
}
