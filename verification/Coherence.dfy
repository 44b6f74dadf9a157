// A client that is the server's only writer, and does not race itself on a key, has no stale entry.
module Coherence {
  import opened Common
  import opened Versions
  import opened Machine
  import opened Calls
  import opened Staleness

  ghost predicate SettingOn(s: State, id: OpId, k: Key) {
    PendingOn(s, id, k) && s.ops[id].call.Set?
  }

  /** A set whose PUT is applied and whose reply is still on its way. */
  ghost predicate AppliedBy(s: State, id: OpId, k: Key) {
    SettingOn(s, id, k) && s.ops[id].phase.Sending? && s.ops[id].reply.Some?
  }

  /** Only gets share a key. */
  ghost predicate SetsAlone(s: State) {
    forall i, j, k :: SettingOn(s, i, k) && PendingOn(s, j, k) ==> i == j
  }

  ghost predicate EntryCurrent(s: State, k: Key) {
    k in s.cache ==> s.cache[k].stamp.version == Latest(s.history, k) || exists id :: AppliedBy(s, id, k)
  }

  /** What a call has read or written is the latest version of its key; a set that failed has left no entry. */
  ghost predicate CallCurrent(s: State, id: OpId) {
    forall k :: PendingOn(s, id, k) ==>
      && (s.ops[id].stamp.Some? ==> s.ops[id].stamp.value.version == Latest(s.history, k))
      && (s.ops[id].call.Set? && s.ops[id].phase.Returning? && s.ops[id].reply.None? ==> k !in s.cache)
  }

  ghost predicate Coherent(s: State) {
    && SetsAlone(s)
    && (forall k :: EntryCurrent(s, k))
    && (forall id :: CallCurrent(s, id))
  }

  ghost predicate Known(s: State) {
    AllFit(s) && Truth(s)
  }

  lemma BeginKeepsCoherent(s: State, id: OpId, ctx: Ctx, call: Call)
    requires Known(s) && Coherent(s) && Enabled(s, Begin(id, ctx, call)) && Allowed(RaceFree, s, Begin(id, ctx, call))
    ensures Coherent(DoBegin(s, id, ctx, call))
  {
    var t := DoBegin(s, id, ctx, call);
    assert SetsAlone(t) by {
      forall i, j, k | SettingOn(t, i, k) && PendingOn(t, j, k) ensures i == j {
        assert i != id ==> SettingOn(s, i, k) && PendingOn(s, i, k);
        assert j != id ==> PendingOn(s, j, k);
      }
    }
    forall k ensures EntryCurrent(t, k) {
      assert EntryCurrent(s, k);
      if j :| AppliedBy(s, j, k) {
        assert AppliedBy(t, j, k);
      }
    }
    forall j ensures CallCurrent(t, j) {
      if j != id {
        assert CallCurrent(s, j);
      }
    }
  }

  /** The cache may lose entries; a call may move on without a word from the server. */
  lemma QuietKeepsCoherent(s: State, t: State)
    requires Coherent(s) && t.history == s.history
    requires forall k :: k in t.cache ==> k in s.cache && t.cache[k] == s.cache[k]
    requires t.ops == s.ops
    ensures Coherent(t)
  {
    assert SetsAlone(t) by {
      forall i, j, k | SettingOn(t, i, k) && PendingOn(t, j, k) ensures i == j {
        assert SettingOn(s, i, k) && PendingOn(s, j, k);
      }
    }
    forall k ensures EntryCurrent(t, k) {
      assert EntryCurrent(s, k);
      if j :| AppliedBy(s, j, k) {
        assert AppliedBy(t, j, k);
      }
    }
    forall j ensures CallCurrent(t, j) {
      assert CallCurrent(s, j);
      forall k | PendingOn(t, j, k) ensures PendingOn(s, j, k) {
      }
    }
  }

  lemma QuietStepKeepsCoherent(s: State, step: Step)
    requires Coherent(s) && Enabled(s, step) && Allowed(RaceFree, s, step) && !CallStep(step) && !step.Begin?
    ensures Coherent(Apply(s, step))
  {
    QuietStepLoses(s, step, Apply(s, step));
    QuietKeepsCoherent(s, Apply(s, step));
  }

  lemma QuietStepLoses(s: State, step: Step, t: State)
    requires Enabled(s, step) && Allowed(RaceFree, s, step) && !CallStep(step) && !step.Begin? && t == Apply(s, step)
    ensures t.history == s.history && t.ops == s.ops
    ensures forall k :: k in t.cache ==> k in s.cache && t.cache[k] == s.cache[k]
  {
  }

  /** A call moves on; what it leaves in the cache under its key is the latest version, or nothing. */
  lemma CallKeepsCoherent(s: State, t: State, id: OpId)
    requires Coherent(s) && t.history == s.history && id in s.ops && Pending(s.ops[id])
    requires id in t.ops && t.ops == s.ops[id := t.ops[id]] && t.ops[id].call == s.ops[id].call
    requires forall k :: k in t.cache && PendingOn(s, id, k) && t.ops[id].call.Set? ==>
      t.cache[k].stamp.version == Latest(s.history, k) || AppliedBy(t, id, k)
    requires forall k :: k in t.cache ==>
      || (k in s.cache && t.cache[k] == s.cache[k])
      || (PendingOn(s, id, k) && t.cache[k].stamp.version == Latest(s.history, k))
    requires CallCurrent(t, id)
    ensures Coherent(t)
  {
    forall j, k | PendingOn(t, j, k) ensures PendingOn(s, j, k) {
    }
    assert SetsAlone(t) by {
      forall i, j, k | SettingOn(t, i, k) && PendingOn(t, j, k) ensures i == j {
        assert SettingOn(s, i, k) && PendingOn(s, j, k);
      }
    }
    forall k ensures EntryCurrent(t, k) {
      assert EntryCurrent(s, k);
      if j :| AppliedBy(s, j, k) && j != id {
        assert AppliedBy(t, j, k);
      }
    }
    forall j ensures CallCurrent(t, j) {
      if j != id {
        assert CallCurrent(s, j);
        forall k | PendingOn(t, j, k) && s.ops[j].call.Set? && k in t.cache ensures k in s.cache {
          assert SettingOn(s, j, k);
        }
      }
    }
  }

  lemma ServePutKeepsCoherent(s: State, id: OpId)
    requires Known(s) && Coherent(s) && CanServePut(s, id)
    ensures Coherent(DoServePut(s, id))
  {
    var t := DoServePut(s, id);
    var k := KeyOf(s.ops[id].call).value;
    WriteAppends(s.history, k, Decode(s.ops[id].call.value), s.now);
    assert SettingOn(s, id, k) && CallCurrent(s, id);
    forall j, i ensures PendingOn(t, j, i) <==> PendingOn(s, j, i) {
    }
    assert SetsAlone(t) by {
      forall i, j, i' | SettingOn(t, i, i') && PendingOn(t, j, i') ensures i == j {
        assert SettingOn(s, i, i') && PendingOn(s, j, i');
      }
    }
    forall i ensures EntryCurrent(t, i) {
      assert EntryCurrent(s, i);
      if i == k {
        assert s.ops[id].phase.Sending? ==> AppliedBy(t, id, k);
      } else if j :| AppliedBy(s, j, i) {
        assert AppliedBy(t, j, i);
      }
    }
    forall j ensures CallCurrent(t, j) {
      assert CallCurrent(s, j);
      assert j != id ==> !PendingOn(s, j, k);
    }
  }

  lemma LookupKeepsCoherent(s: State, step: Step)
    requires Known(s) && Coherent(s) && Enabled(s, step)
    requires step.Reject? || step.Hit? || step.Miss? || step.Submit? || step.ServeGet? || step.Finish?
    ensures Coherent(Apply(s, step))
  {
    var t, id := Apply(s, step), step.id;
    assert Fits(s.ops[id]) && CallCurrent(s, id);
    if KeyOf(s.ops[id].call).Some? {
      OnlySetter(s, id, KeyOf(s.ops[id].call).value);
    }
    CallKeepsCoherent(s, t, id);
  }

  lemma ReplyKeepsCoherent(s: State, step: Step)
    requires Known(s) && Coherent(s) && Enabled(s, step)
    requires step.GotValue? || step.GotStored? || step.GotFailure?
    ensures Coherent(Apply(s, step))
  {
    var t, id := Apply(s, step), step.id;
    assert Fits(s.ops[id]) && CallCurrent(s, id);
    OnlySetter(s, id, KeyOf(s.ops[id].call).value);
    CallKeepsCoherent(s, t, id);
  }

  /** What is known of the entry under the key of a call. */
  lemma OnlySetter(s: State, id: OpId, k: Key)
    requires Coherent(s) && PendingOn(s, id, k)
    ensures k in s.cache ==>
      if s.ops[id].call.Get? then s.cache[k].stamp.version == Latest(s.history, k)
      else s.cache[k].stamp.version == Latest(s.history, k) || AppliedBy(s, id, k)
  {
    assert EntryCurrent(s, k);
    if j :| AppliedBy(s, j, k) {
      assert SettingOn(s, j, k);
    }
  }

  lemma StepKeepsCoherent(s: State, step: Step)
    requires Known(s) && Coherent(s) && Enabled(s, step) && Allowed(RaceFree, s, step)
    ensures Coherent(Apply(s, step))
  {
    if step.Begin? {
      BeginKeepsCoherent(s, step.id, step.ctx, step.call);
    } else if step.ServePut? {
      ServePutKeepsCoherent(s, step.id);
    } else if step.GotValue? || step.GotStored? || step.GotFailure? {
      ReplyKeepsCoherent(s, step);
    } else if CallStep(step) {
      LookupKeepsCoherent(s, step);
    } else {
      QuietStepKeepsCoherent(s, step);
    }
  }

  lemma {:induction false} CoherentAlways(s: State, steps: seq<Step>)
    requires Init(s) && Run(RaceFree, s, steps)
    ensures Known(After(s, steps)) && Coherent(After(s, steps))
    decreases |steps|
  {
    if steps != [] {
      var n := |steps| - 1;
      CoherentAlways(s, steps[..n]);
      var t, step := After(s, steps[..n]), steps[n];
      StepKeepsFit(t, step);
      StepKeepsTruth(t, step);
      StepKeepsCoherent(t, step);
    }
  }

  /** While no set on k is running, what the cache holds for k is what the server holds. */
  lemma {:induction false} RaceFreeCoherence(s: State, steps: seq<Step>, k: Key)
    requires Init(s) && Run(RaceFree, s, steps)
    requires k in After(s, steps).cache && forall id :: !SettingOn(After(s, steps), id, k)
    ensures Current(After(s, steps).history, k) == Some(After(s, steps).cache[k].ref.text)
  {
    CoherentAlways(s, steps);
    var t := After(s, steps);
    assert EntryCurrent(t, k) && TrueEntry(t.history, t.now, k, t.cache[k]);
  }

  /**
   A get that returns reports what the server holds at that very moment: caching, expiry, failed sets and
   concurrent calls on other keys cannot be told from asking the server map itself.
   */
  lemma {:induction false} RaceFreeGetsAreExact(s: State, steps: seq<Step>, id: OpId, v: Option<Value>)
    requires Init(s) && Run(RaceFree, s, steps)
    requires id in After(s, steps).ops && Reports(After(s, steps).ops[id], v)
    ensures
      var t := After(s, steps);
      Current(t.history, KeyOf(t.ops[id].call).value) == v
  {
    CoherentAlways(s, steps);
    var t := After(s, steps);
    var k := KeyOf(t.ops[id].call).value;
    assert PendingOn(t, id, k) && CallCurrent(t, id) && Fits(t.ops[id]) && TrueOp(t.history, t.now, t.ops[id]);
  }
}
