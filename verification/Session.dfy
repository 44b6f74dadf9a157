// What one client still sees through its cache when its own calls on a key do not overlap.
module Session {
  import opened Common
  import opened Http
  import opened Versions
  import opened Machine
  import opened Calls
  import opened Lifecycle
  import opened Staleness

  /** An answer that reveals or fixes the state of its key. */
  predicate Observed(op: Op) {
    match op.phase
    case Returning(a) => a.Found? || a.Stored? || a == Failed(KeyNotFound)
    case Finished(a) => a.Found? || a.Stored? || a == Failed(KeyNotFound)
    case _ => false
  }

  function Version(op: Op): nat {
    op.stamp.GetOr(Stamp(0, 0)).version
  }

  ghost predicate ReportsOn(s: State, i: nat, k: Key) {
    && i < |s.log| && s.log[i] in s.ops
    && KeyOf(s.ops[s.log[i]].call) == Some(k) && Observed(s.ops[s.log[i]])
  }

  /** The i-th reported version, in order of return. */
  function Reported(s: State, i: nat): nat
    requires i < |s.log| && s.log[i] in s.ops
  {
    Version(s.ops[s.log[i]])
  }

  /** No answer about k has reported a version above n. */
  ghost predicate AtLeastReported(s: State, k: Key, n: nat) {
    forall i: nat :: ReportsOn(s, i, k) ==> Reported(s, i) <= n
  }

  ghost predicate Alone(s: State) {
    forall i, j, k :: PendingOn(s, i, k) && PendingOn(s, j, k) ==> i == j
  }

  /** A get that missed, and whose answer is not in the cache, finds nothing there. */
  predicate Missed(op: Op) {
    op.call.Get? && op.asked && (op.phase.Sending? || (op.phase.Returning? && op.phase.answer.Failed?))
  }

  ghost predicate EntriesFresh(s: State) {
    forall k :: k in s.cache ==> AtLeastReported(s, k, s.cache[k].stamp.version)
  }

  ghost predicate CallsFresh(s: State) {
    forall id, k :: PendingOn(s, id, k) ==>
      && (s.ops[id].stamp.Some? ==> AtLeastReported(s, k, Version(s.ops[id])))
      && (Missed(s.ops[id]) ==> k !in s.cache)
      && (Observed(s.ops[id]) && k in s.cache ==> Version(s.ops[id]) <= s.cache[k].stamp.version)
  }

  ghost predicate Monotone(s: State) {
    forall i: nat, j: nat, k :: i < j && ReportsOn(s, i, k) && ReportsOn(s, j, k) ==> Reported(s, i) <= Reported(s, j)
  }

  ghost predicate Base(s: State) {
    AllFit(s) && Truth(s) && LoggedOnce(s)
  }

  ghost predicate Session(s: State) {
    Alone(s) && EntriesFresh(s) && CallsFresh(s) && Monotone(s)
  }

  /** A version read from the server now is at least as new as anything reported. */
  lemma LatestIsFresh(s: State, k: Key, n: nat)
    requires Base(s) && n >= Latest(s.history, k)
    ensures AtLeastReported(s, k, n)
  {
    forall i: nat | ReportsOn(s, i, k) ensures Reported(s, i) <= n {
      assert TrueOp(s.history, s.now, s.ops[s.log[i]]) && Fits(s.ops[s.log[i]]);
    }
  }

  /** Reports depend only on the log and the finished calls in it. */
  lemma SameReports(s: State, t: State)
    requires t.log == s.log
    requires forall id :: id in s.log ==> id in s.ops && id in t.ops && t.ops[id] == s.ops[id]
    ensures forall i: nat, k :: ReportsOn(t, i, k) <==> ReportsOn(s, i, k)
    ensures forall k, n: nat :: AtLeastReported(t, k, n) <==> AtLeastReported(s, k, n)
    ensures Monotone(t) <==> Monotone(s)
  {
    forall i: nat, k ensures ReportsOn(t, i, k) <==> ReportsOn(s, i, k) {
    }
    forall k, n: nat ensures AtLeastReported(t, k, n) <==> AtLeastReported(s, k, n) {
      if AtLeastReported(s, k, n) {
        forall i: nat | ReportsOn(t, i, k) ensures Reported(t, i) <= n {
          assert ReportsOn(s, i, k);
        }
      }
      if AtLeastReported(t, k, n) {
        forall i: nat | ReportsOn(s, i, k) ensures Reported(s, i) <= n {
          assert ReportsOn(t, i, k);
        }
      }
    }
  }

  // ------------------------------------------------------------------ each step

  /** Where the call may put its own key in the cache: nowhere new, or at the version it carries. */
  ghost predicate CacheFollows(s: State, t: State, op: Op) {
    forall k :: k in t.cache ==>
      || (k in s.cache && t.cache[k] == s.cache[k])
      || (KeyOf(op.call) == Some(k) && op.stamp.Some? && t.cache[k].stamp == op.stamp.value)
  }

  ghost predicate CallFresh(s: State, cache: map<Key, Entry>, op: Op) {
    forall k :: KeyOf(op.call) == Some(k) ==>
      && (op.stamp.Some? ==> AtLeastReported(s, k, Version(op)))
      && (Missed(op) ==> k !in cache)
      && (Observed(op) && k in cache ==> Version(op) <= cache[k].stamp.version)
  }

  /** A call under way takes a step. */
  lemma CallKeepsSession(s: State, t: State, id: OpId)
    requires Base(s) && Session(s) && t.log == s.log
    requires id in t.ops && t.ops == s.ops[id := t.ops[id]] && Pending(t.ops[id])
    requires id in s.ops ==> Pending(s.ops[id]) && t.ops[id].call == s.ops[id].call
    requires id !in s.ops ==> forall j, k :: KeyOf(t.ops[id].call) == Some(k) ==> !PendingOn(s, j, k)
    requires CacheFollows(s, t, t.ops[id]) && CallFresh(s, t.cache, t.ops[id])
    ensures Session(t)
  {
    SameReports(s, t);
    forall i, j, k | PendingOn(t, i, k) && PendingOn(t, j, k) ensures i == j {
      assert i != id ==> PendingOn(s, i, k);
      assert j != id ==> PendingOn(s, j, k);
      assert id in s.ops && KeyOf(t.ops[id].call) == Some(k) ==> PendingOn(s, id, k);
    }
    forall j, k | PendingOn(t, j, k) && j != id
      ensures CallFresh(t, t.cache, t.ops[j])
    {
      assert PendingOn(s, j, k);
      assert KeyOf(t.ops[id].call) == Some(k) ==> PendingOn(t, id, k);
    }
  }

  /** The cache may lose entries, and the server may be written, without touching any call. */
  lemma QuietKeepsSession(s: State, t: State)
    requires Session(s) && LoggedOnce(s) && t.log == s.log && t.ops == s.ops
    requires forall k :: k in t.cache ==> k in s.cache && t.cache[k] == s.cache[k]
    ensures Session(t)
  {
    SameReports(s, t);
    forall i, k ensures PendingOn(t, i, k) <==> PendingOn(s, i, k) {
    }
  }

  lemma FinishKeepsSession(s: State, id: OpId)
    requires Base(s) && Session(s) && id in s.ops && s.ops[id].phase.Returning?
    ensures Session(DoFinish(s, id))
  {
    var t := DoFinish(s, id);
    var n := |s.log|;
    forall i: nat, k | ReportsOn(t, i, k)
      ensures if i < n then ReportsOn(s, i, k) && Reported(s, i) == Reported(t, i)
              else i == n && PendingOn(s, id, k) && Observed(s.ops[id]) && Reported(t, i) == Version(s.ops[id])
    {
    }
    forall j, k | PendingOn(t, j, k) ensures PendingOn(s, j, k) && j != id && !PendingOn(s, id, k) {
      assert PendingOn(s, j, k);
    }
    assert Fits(s.ops[id]);
    forall k | k in t.cache ensures AtLeastReported(t, k, t.cache[k].stamp.version) {
    }
    forall i: nat, j: nat, k | i < j && ReportsOn(t, i, k) && ReportsOn(t, j, k)
      ensures Reported(t, i) <= Reported(t, j)
    {
      assert ReportsOn(s, i, k);
    }
    forall j, k | PendingOn(t, j, k) && t.ops[j].stamp.Some? ensures AtLeastReported(t, k, Version(t.ops[j])) {
    }
  }

  lemma LookupKeepsSession(s: State, step: Step)
    requires Base(s) && Session(s) && Enabled(s, step) && Allowed(PerKey, s, step)
    requires step.Begin? || step.Reject? || step.Hit? || step.Miss? || step.Submit?
    ensures Session(Apply(s, step))
  {
    var t := Apply(s, step);
    if step.id in s.ops {
      assert Fits(s.ops[step.id]) && TrueOp(s.history, s.now, s.ops[step.id]);
    }
    CallKeepsSession(s, t, step.id);
  }

  lemma ServeKeepsSession(s: State, step: Step)
    requires Base(s) && Session(s) && Enabled(s, step) && (step.ServeGet? || step.ServePut?)
    ensures Session(Apply(s, step))
  {
    var k := KeyOf(s.ops[step.id].call).value;
    assert PendingOn(s, step.id, k);
    LatestIsFresh(s, k, Latest(s.history, k));
    LatestIsFresh(s, k, Latest(s.history, k) + 1);
    assert Fits(s.ops[step.id]);
    CallKeepsSession(s, Apply(s, step), step.id);
  }

  lemma ReplyKeepsSession(s: State, step: Step)
    requires Base(s) && Session(s) && Enabled(s, step)
    requires IsAnswered(step)
    ensures Session(Apply(s, step))
  {
    var t := Apply(s, step);
    assert PendingOn(s, step.id, KeyOf(s.ops[step.id].call).value);
    AnswerContinues(s, step, t);
    AnswerIsFresh(s, step, t);
    CallKeepsSession(s, t, step.id);
  }

  lemma AnswerIsFresh(s: State, step: Step, t: State)
    requires Base(s) && Session(s) && Enabled(s, step) && IsAnswered(step) && t == Apply(s, step)
    ensures step.id in t.ops && CacheFollows(s, t, t.ops[step.id]) && CallFresh(s, t.cache, t.ops[step.id])
  {
    if step.GotFailure? {
      FailureIsFresh(s, step.id, step.reply);
    } else {
      InsertIsFresh(s, step, t);
    }
  }

  lemma FailureIsFresh(s: State, id: OpId, reply: HttpReply)
    requires Base(s) && Session(s) && Enabled(s, GotFailure(id, reply))
    ensures
      var t := DoGotFailure(s, id, reply);
      CacheFollows(s, t, t.ops[id]) && CallFresh(s, t.cache, t.ops[id])
  {
    assert PendingOn(s, id, KeyOf(s.ops[id].call).value);
    assert Fits(s.ops[id]);
  }

  lemma InsertIsFresh(s: State, step: Step, t: State)
    requires Base(s) && Session(s) && Enabled(s, step) && (step.GotValue? || step.GotStored?) && t == Apply(s, step)
    ensures step.id in t.ops && CacheFollows(s, t, t.ops[step.id]) && CallFresh(s, t.cache, t.ops[step.id])
  {
    var k := KeyOf(s.ops[step.id].call).value;
    InsertShape(s, step, t, k);
    assert PendingOn(s, step.id, k);
  }

  lemma InsertShape(s: State, step: Step, t: State, k: Key)
    requires Enabled(s, step) && (step.GotValue? || step.GotStored?) && t == Apply(s, step)
    requires Fits(s.ops[step.id]) && KeyOf(s.ops[step.id].call) == Some(k)
    ensures k in t.cache && t.cache == s.cache[k := t.cache[k]] && step.id in t.ops
    ensures t.ops[step.id] == s.ops[step.id].(phase := t.ops[step.id].phase, arrived := Some(step.reply))
    ensures Observed(t.ops[step.id])
    ensures t.ops[step.id].stamp == Some(t.cache[k].stamp)
  {
  }

  lemma QuietStepKeepsSession(s: State, step: Step)
    requires LoggedOnce(s) && Session(s) && Enabled(s, step) && !CallStep(step) && !step.Begin?
    ensures Session(Apply(s, step))
  {
    QuietKeepsSession(s, Apply(s, step));
  }

  lemma StepKeepsSession(s: State, step: Step)
    requires Base(s) && Session(s) && Enabled(s, step) && Allowed(PerKey, s, step)
    ensures Session(Apply(s, step))
  {
    if step.Finish? {
      FinishKeepsSession(s, step.id);
    } else if step.ServeGet? || step.ServePut? {
      ServeKeepsSession(s, step);
    } else if step.GotValue? || step.GotStored? || step.GotFailure? {
      ReplyKeepsSession(s, step);
    } else if CallStep(step) || step.Begin? {
      LookupKeepsSession(s, step);
    } else {
      QuietStepKeepsSession(s, step);
    }
  }

  lemma {:induction false} SessionAlways(s: State, steps: seq<Step>)
    requires Init(s) && Run(PerKey, s, steps)
    ensures Base(After(s, steps)) && Session(After(s, steps))
    decreases |steps|
  {
    if steps != [] {
      var n := |steps| - 1;
      SessionAlways(s, steps[..n]);
      var t, step := After(s, steps[..n]), steps[n];
      StepKeepsFit(t, step);
      StepKeepsTruth(t, step);
      StepLogsOnce(t, step);
      StepKeepsSession(t, step);
    }
  }

  /**
   Of two answers about one key, the later reports a version no older than the earlier, and each version is
   what the server held: reads never go back, and never miss the client's own successful sets. Other keys
   interleave freely, and foreign writes, deletes, eviction, expiry, clear and failed sets may intervene.
   */
  lemma {:induction false} SessionGuarantee(s: State, steps: seq<Step>, i: nat, j: nat, k: Key)
    requires Init(s) && Run(PerKey, s, steps) && i < j
    requires ReportsOn(After(s, steps), i, k) && ReportsOn(After(s, steps), j, k)
    ensures
      var t := After(s, steps);
      var a, b := t.ops[t.log[i]], t.ops[t.log[j]];
      && Version(a) <= Version(b) < |VersionsOf(t.history, k)|
      && VersionsOf(t.history, k)[Version(a)].value == Learned(a)
      && VersionsOf(t.history, k)[Version(b)].value == Learned(b)
  {
    SessionAlways(s, steps);
    var t := After(s, steps);
    var a, b := t.ops[t.log[i]], t.ops[t.log[j]];
    assert Fits(a) && Fits(b) && TrueOp(t.history, t.now, a) && TrueOp(t.history, t.now, b);
    assert Reported(t, i) <= Reported(t, j);
  }
}
