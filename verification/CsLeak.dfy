// A C# program that does all it can, and still leaves a string behind.
module CsLeak {
  import opened Common
  import opened Bags
  import opened Http
  import opened Versions
  import Native = Machine
  import CsAsync
  import CsOneCall
  import CsResults
  import opened CsEndToEnd

  lemma Extend(s: State, steps: seq<Step>, step: Step) returns (more: seq<Step>)
    requires Run(s, steps) && Enabled(After(s, steps), step)
    ensures more == steps + [step] && Run(s, more) && After(s, more) == Apply(After(s, steps), step)
  {
    more := steps + [step];
    assert more[..|more| - 1] == steps;
  }

  // ------------------------------------------------------------------ the managed call, call 0, which is cancelled

  function Client(n: nat): CsAsync.State
    requires n <= 11
  {
    CsOneCall.StateAt(0, 0, 0, true, n)
  }

  lemma ManagedAdvances(s: State, steps: seq<Step>, n: nat) returns (more: seq<Step>)
    requires Run(s, steps) && n < 11 && n != 6 && After(s, steps).client == Client(n)
    ensures Run(s, more) && After(s, more) == After(s, steps).(client := Client(n + 1))
  {
    if n < 3 {
      CsOneCall.CallBegins(0, 0, 0, true, n);
    } else if n < 6 {
      CsOneCall.CallAdvances(0, 0, 0, true, n);
    } else if n < 9 {
      CsOneCall.CallbackAdvances(0, 0, 0, true, n);
    } else {
      CsOneCall.EndAdvances(0, 0, 0, true, n);
    }
    more := Extend(s, steps, Managed(CsOneCall.StepAt(0, 0, 0, n)));
    if n == 5 {
      CsOneCall.TokenFires(0, 0, 0);
      more := Extend(s, more, Managed(CsAsync.Cancel(0)));
    }
  }

  lemma {:induction false} ManagedRuns(s: State, steps: seq<Step>, m: nat, n: nat) returns (more: seq<Step>)
    requires Run(s, steps) && m <= n <= 11 && (n <= 6 || m > 6) && After(s, steps).client == Client(m)
    ensures Run(s, more) && After(s, more) == After(s, steps).(client := Client(n))
    decreases n - m
  {
    if m == n {
      more := steps;
    } else {
      more := ManagedAdvances(s, steps, m);
      more := ManagedRuns(s, more, m + 1, n);
    }
  }

  // ------------------------------------------------------------------ its native get, call 0 there too

  /** The get has been answered and its value cached; it is about to hand it over. */
  ghost predicate Answered(t: Native.State, k: Key, v: Value) {
    && t.cfg.async && t.box && t.clones == 2 && t.retired == multiset{} && t.ops.Keys == {0}
    && t.ops[0].call == Native.Get(Text(k)) && t.ops[0].asked
    && t.ops[0].phase == Native.Returning(Native.Found(Native.Ref(0, v)))
    && k in t.cache && t.cache == map[k := t.cache[k]] && t.cache[k].ref == Native.Ref(0, v)
  }

  lemma GetIsAnswered(t: Native.State, k: Key, v: Value)
    requires Native.Init(t) && t.cfg.async && Current(t.history, k) == Some(v)
    ensures
      var begun := Native.DoBegin(t, 0, 0, Native.Get(Text(k)));
      && Native.Enabled(begun, Native.Miss(0))
      && var missed := Native.DoMiss(begun, 0);
      && Native.Enabled(missed, Native.ServeGet(0))
      && var served := Native.DoServeGet(missed, 0);
      && Native.Enabled(served, Native.GotValue(0, Reply(200, Some(v)), 0))
      && Answered(Native.DoGotValue(served, 0, Reply(200, Some(v)), 0), k, v)
  {
  }

  lemma NativeAnswers(s: State, steps: seq<Step>, k: Key, v: Value) returns (more: seq<Step>)
    requires Run(s, steps) && Native.Init(After(s, steps).native) && After(s, steps).native.cfg.async
    requires Current(After(s, steps).native.history, k) == Some(v)
    ensures Run(s, more) && Answered(After(s, more).native, k, v) && After(s, more).client == After(s, steps).client
  {
    GetIsAnswered(After(s, steps).native, k, v);
    more := Extend(s, steps, Inside(Native.Begin(0, 0, Native.Get(Text(k)))));
    more := Extend(s, more, Inside(Native.Miss(0)));
    more := Extend(s, more, Inside(Native.ServeGet(0)));
    more := Extend(s, more, Inside(Native.GotValue(0, Reply(200, Some(v)), 0)));
  }

  // ------------------------------------------------------------------ delivery, and the end of the client

  /** The native call has ended. */
  ghost predicate Ended(t: Native.State, k: Key, v: Value) {
    && t.cfg.async && t.box && t.clones == 1 && t.retired == multiset{} && t.ops.Keys == {0}
    && t.ops[0].phase.Finished?
    && k in t.cache && t.cache == map[k := t.cache[k]] && t.cache[k].ref == Native.Ref(0, v)
  }

  lemma Delivers(s: State, steps: seq<Step>, k: Key, v: Value) returns (more: seq<Step>)
    requires Run(s, steps) && Answered(After(s, steps).native, k, v) && After(s, steps).client == Client(6)
    ensures Run(s, more) && Ended(After(s, more).native, k, v) && After(s, more).client == Client(7)
  {
    CanDeliver(After(s, steps), k, v);
    FinishEnds(After(s, steps).native, k, v);
    more := Extend(s, steps, Deliver(0, 0));
  }

  lemma CanDeliver(t: State, k: Key, v: Value)
    requires Answered(t.native, k, v) && t.client == Client(6)
    ensures Enabled(t, Deliver(0, 0)) && Apply(t, Deliver(0, 0)) == State(Native.DoFinish(t.native, 0), Client(7))
  {
    CsOneCall.CallbackComes(0, 0, 0, true);
  }

  lemma FinishEnds(t: Native.State, k: Key, v: Value)
    requires Answered(t, k, v)
    ensures Ended(Native.DoFinish(t, 0), k, v)
  {
  }

  lemma DestroyRetires(t: Native.State, k: Key, v: Value)
    requires Ended(t, k, v)
    ensures
      var u := Native.DoDestroy(t);
      && Native.Enabled(t, Native.Destroy) && u.retired == multiset{Native.Ref(0, v)}
      && !u.box && u.ops == t.ops
  {
    BagRemove(t.cache, Native.EntryRefs, k);
    assert t.cache - {k} == map[];
  }

  ghost predicate Gone(t: Native.State) {
    !t.box && t.retired == multiset{} && forall id :: id in t.ops ==> !Native.Pending(t.ops[id])
  }

  lemma DropLeavesNothing(t: Native.State, k: Key, v: Value)
    requires Ended(t, k, v)
    ensures
      var u := Native.DoDestroy(t);
      Native.Enabled(u, Native.DropRetired(Native.Ref(0, v))) && Gone(Native.DoDropRetired(u, Native.Ref(0, v)))
  {
    DestroyRetires(t, k, v);
  }

  lemma NativeGoes(s: State, steps: seq<Step>, k: Key, v: Value) returns (more: seq<Step>)
    requires Run(s, steps) && Ended(After(s, steps).native, k, v)
    ensures Run(s, more) && After(s, more).client == After(s, steps).client && Gone(After(s, more).native)
  {
    DestroyRetires(After(s, steps).native, k, v);
    DropLeavesNothing(After(s, steps).native, k, v);
    more := Extend(s, steps, Inside(Native.Destroy));
    more := Extend(s, more, Inside(Native.DropRetired(Native.Ref(0, v))));
  }

  /**
   A get is cancelled while its native call runs, and then succeeds. The program does all that it can, the client is
   destroyed and the cache drops its copy, and yet the string is still allocated.
   */
  lemma {:induction false} CancelledGetKeepsString(s: State, k: Key, v: Value) returns (steps: seq<Step>)
    requires Init(s) && s.native.cfg.async && Current(s.native.history, k) == Some(v)
    ensures Run(s, steps) && Over(After(s, steps)) && After(s, steps).native.heap != map[]
  {
    steps := ManagedRuns(s, [], 0, 6);
    steps := NativeAnswers(s, steps, k, v);
    steps := Delivers(s, steps, k, v);
    steps := ManagedRuns(s, steps, 7, 11);
    steps := NativeGoes(s, steps, k, v);
    LostAtTheEnd(After(s, steps));
    ProgramLeavesLostResults(s, steps);
  }

  lemma LostAtTheEnd(t: State)
    requires t.client == Client(11)
    ensures CsAsync.Quiet(t.client) && CsResults.AllDisposed(t.client)
    ensures 0 in t.client.ops && CsResults.LostToToken(t.client.ops[0])
  {
  }
}
