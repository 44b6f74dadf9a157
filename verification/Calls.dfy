// What is true of each call on its own, and how long a call can take.
module Calls {
  import opened Common
  import opened Bags
  import opened Http
  import opened Machine

  predicate GenuineGet(reply: HttpReply) {
    reply == Reply(404, None) || (reply.Reply? && reply.status == 200 && reply.body.Some?)
  }

  /** The code that goes with what came of the request of a call. */
  predicate Told(op: Op, code: ErrorCode) {
    op.arrived.Some? && if op.call.Get? then GetSays(op.arrived.value, code) else SetSays(op.arrived.value, code)
  }

  /** How an answer goes with what happened to its call. */
  predicate AnswerFits(op: Op, a: Answer) {
    match a
    case Found(ref) =>
      && op.call.Get? && !Malformed(op.call) && op.stamp.Some?
      && (if op.asked then Told(op, Success) && op.arrived.value.body == Some(ref.text) else op.arrived.None?)
    case Stored => op.call.Set? && op.asked && op.reply.Some? && Told(op, Success)
    case Failed(code) =>
      && (code == InvalidInput <==> Malformed(op.call))
      && (code == InvalidInput <==> !op.asked)
      && (code == KeyNotFound ==> op.call.Get? && op.reply == Some(Reply(404, None)))
      && code != Success && (if op.asked then Told(op, code) else op.arrived.None?)
  }

  predicate Fits(op: Op) {
    && (op.reply.Some? ==> op.asked && op.stamp.Some? && (op.call.Get? ==> GenuineGet(op.reply.value)))
    && (op.asked ==> !Malformed(op.call)) && (op.phase.Entered? || op.phase.Sending? ==> op.arrived.None?)
    && match op.phase
       case Entered => !op.asked
       case Sending => op.asked
       case Returning(a) => AnswerFits(op, a)
       case Finished(a) => AnswerFits(op, a)
  }

  ghost predicate AllFit(s: State) {
    forall id :: id in s.ops ==> Fits(s.ops[id])
  }

  /** How many steps a call still has at most. */
  function WorkOf(op: Op): nat {
    match op.phase
    case Entered => 7
    case Sending => if op.reply.None? then 5 else 4
    case Returning(_) => if op.call.Set? && op.asked && op.reply.None? then 3 else 2
    case Finished(_) => 0
  }

  // ------------------------------------------------------------------ what a step of a call changes

  /** The call goes on: its record alone changes, and it is still to return. */
  ghost predicate Continues(s: State, t: State, id: OpId) {
    && id in s.ops && id in t.ops && t.ops == s.ops[id := t.ops[id]]
    && t.ctxs == s.ctxs && t.log == s.log && t.cfg == s.cfg && t.results == s.results
    && t.ops[id].call == s.ops[id].call && t.ops[id].ctx == s.ops[id].ctx
    && Pending(s.ops[id]) && Pending(t.ops[id])
  }

  predicate LooksUp(step: Step) {
    step.Reject? || step.Hit? || step.Miss? || step.Submit?
  }

  predicate IsServed(step: Step) {
    step.ServeGet? || step.ServePut?
  }

  predicate IsAnswered(step: Step) {
    step.GotValue? || step.GotStored? || step.GotFailure?
  }

  predicate CallStep(step: Step) {
    LooksUp(step) || IsServed(step) || IsAnswered(step) || step.Finish?
  }

  lemma LookupContinues(s: State, step: Step, t: State)
    requires Enabled(s, step) && LooksUp(step) && t == Apply(s, step)
    ensures Continues(s, t, step.id)
    ensures Fits(s.ops[step.id]) ==> Fits(t.ops[step.id]) && WorkOf(t.ops[step.id]) < WorkOf(s.ops[step.id])
  {
  }

  lemma ServeContinues(s: State, step: Step, t: State)
    requires Enabled(s, step) && IsServed(step) && t == Apply(s, step)
    ensures Continues(s, t, step.id)
    ensures Fits(s.ops[step.id]) ==> Fits(t.ops[step.id]) && WorkOf(t.ops[step.id]) < WorkOf(s.ops[step.id])
  {
  }

  lemma AnswerContinues(s: State, step: Step, t: State)
    requires Enabled(s, step) && IsAnswered(step) && t == Apply(s, step)
    ensures Continues(s, t, step.id)
    ensures Fits(s.ops[step.id]) ==> Fits(t.ops[step.id]) && WorkOf(t.ops[step.id]) < WorkOf(s.ops[step.id])
  {
    AnswerReturns(s, step, t);
  }

  /** The call has its answer, and remembers the reply. */
  lemma AnswerReturns(s: State, step: Step, t: State)
    requires Enabled(s, step) && IsAnswered(step) && t == Apply(s, step)
    ensures step.id in t.ops && t.ops[step.id].phase.Returning?
    ensures t.ops[step.id] == s.ops[step.id].(phase := t.ops[step.id].phase, arrived := Some(step.reply))
    ensures Fits(s.ops[step.id]) ==> AnswerFits(t.ops[step.id], t.ops[step.id].phase.answer)
  {
  }

  lemma CallContinues(s: State, step: Step, t: State)
    requires Enabled(s, step) && CallStep(step) && !step.Finish? && t == Apply(s, step)
    ensures Continues(s, t, step.id)
    ensures Fits(s.ops[step.id]) ==> Fits(t.ops[step.id]) && WorkOf(t.ops[step.id]) < WorkOf(s.ops[step.id])
  {
    if LooksUp(step) {
      LookupContinues(s, step, t);
    } else if IsServed(step) {
      ServeContinues(s, step, t);
    } else {
      AnswerContinues(s, step, t);
    }
  }

  /** Every other step leaves the calls and the log alone. */
  lemma OtherStepKeepsCalls(s: State, step: Step, t: State)
    requires Enabled(s, step) && !CallStep(step) && !step.Begin? && t == Apply(s, step)
    ensures t.ops == s.ops && t.log == s.log && t.ctxs == s.ctxs
  {
  }

  lemma OtherStepKeepsResults(s: State, step: Step, t: State)
    requires Enabled(s, step) && !CallStep(step) && !step.Begin? && !step.Release? && t == Apply(s, step)
    ensures t.results == s.results
  {
  }

  lemma StepKeepsFit(s: State, step: Step)
    requires AllFit(s) && Enabled(s, step)
    ensures AllFit(Apply(s, step))
  {
    if CallStep(step) && !step.Finish? {
      CallContinues(s, step, Apply(s, step));
    } else {
      OtherStepKeepsFit(s, step);
    }
  }

  lemma OtherStepKeepsFit(s: State, step: Step)
    requires AllFit(s) && Enabled(s, step) && (CallStep(step) ==> step.Finish?)
    ensures AllFit(Apply(s, step))
  {
  }

  /**
   A call that spawns nothing is one that ends in InvalidInput or hits the cache; every other call sends exactly
   one request.
   */
  lemma {:induction false} EveryAnswerFits(d: Discipline, s: State, steps: seq<Step>)
    requires Init(s) && Run(d, s, steps)
    ensures AllFit(After(s, steps))
    decreases |steps|
  {
    if steps != [] {
      var n := |steps| - 1;
      EveryAnswerFits(d, s, steps[..n]);
      StepKeepsFit(After(s, steps[..n]), steps[n]);
    }
  }

  // ------------------------------------------------------------------ termination

  function Tokens(op: Op): multiset<bool> {
    multiset{}[true := WorkOf(op)]
  }

  ghost function Work(s: State): nat {
    Bag(s.ops, Tokens)[true]
  }

  function CallSteps(steps: seq<Step>): nat {
    if steps == [] then 0
    else CallSteps(steps[..|steps| - 1]) + if CallStep(steps[|steps| - 1]) then 1 else 0
  }

  lemma StepWorks(s: State, step: Step)
    requires AllFit(s) && Enabled(s, step) && !step.Begin?
    ensures Work(Apply(s, step)) + (if CallStep(step) then 1 else 0) <= Work(s)
  {
    if CallStep(step) {
      var t := Apply(s, step);
      CallStepWorks(s, step, t);
      BagPut(s.ops, Tokens, step.id, t.ops[step.id]);
    }
  }

  lemma CallStepWorks(s: State, step: Step, t: State)
    requires AllFit(s) && Enabled(s, step) && CallStep(step) && t == Apply(s, step)
    ensures step.id in s.ops && step.id in t.ops && t.ops == s.ops[step.id := t.ops[step.id]]
    ensures WorkOf(t.ops[step.id]) < WorkOf(s.ops[step.id])
  {
    if !step.Finish? {
      CallContinues(s, step, t);
    }
  }

  /** With no new calls, every schedule of what remains is finite. */
  lemma {:induction false} SchedulesEnd(d: Discipline, s: State, steps: seq<Step>)
    requires AllFit(s) && Run(d, s, steps) && forall i :: 0 <= i < |steps| ==> !steps[i].Begin?
    ensures AllFit(After(s, steps)) && CallSteps(steps) + Work(After(s, steps)) <= Work(s)
    decreases |steps|
  {
    if steps != [] {
      var n := |steps| - 1;
      SchedulesEnd(d, s, steps[..n]);
      StepKeepsFit(After(s, steps[..n]), steps[n]);
      StepWorks(After(s, steps[..n]), steps[n]);
    }
  }

  /** No call is ever stuck: while one is pending it can take a step, whatever the discipline. */
  lemma PendingCanStep(s: State, id: OpId, d: Discipline) returns (step: Step)
    requires AllFit(s) && id in s.ops && Pending(s.ops[id])
    ensures CallStep(step) && step.id == id && Enabled(s, step) && Allowed(d, s, step)
  {
    var op := s.ops[id];
    match op.phase
    case Entered =>
      step := if KeyOf(op.call).None? then Reject(id)
              else if op.call.Set? then Submit(id)
              else if Fresh(s, KeyOf(op.call).value) then Hit(id) else Miss(id);
    case Sending => step := GotFailure(id, NoReply);
    case Returning(_) => step := Finish(id);
  }
}
