// The client box, the handles on its cache store, and the contexts of asynchronous calls.
module Lifecycle {
  import opened Common
  import opened Machine
  import opened Calls

  function Tasks(ops: map<OpId, Op>): set<OpId> {
    set id | id in ops && Spawned(ops[id])
  }

  lemma TasksAfter(ops: map<OpId, Op>, id: OpId, op: Op)
    ensures Tasks(ops[id := op]) == if Spawned(op) then Tasks(ops) + {id} else Tasks(ops) - {id}
  {
  }

  ghost predicate OwnContexts(s: State) {
    && (forall id :: id in s.ops && Pending(s.ops[id]) ==> s.ops[id].ctx in s.ctxs)
    && (forall i, j :: i in s.ops && j in s.ops && Pending(s.ops[i]) && Pending(s.ops[j]) && i != j ==>
          s.ops[i].ctx != s.ops[j].ctx)
    && (forall c :: c in s.ctxs ==> exists id :: id in s.ops && Pending(s.ops[id]) && s.ops[id].ctx == c)
  }

  /** Contexts are in bijection with the calls whose callback has not run. */
  ghost predicate Contexts(s: State) {
    if s.cfg.async then OwnContexts(s) else s.ctxs == {}
  }

  /** The store has one handle for the box and one for each task in flight. */
  ghost predicate Clones(s: State) {
    s.clones == (if s.box then 1 else 0) + (if s.cfg.async then |Tasks(s.ops)| else 0)
  }

  /** No call still needs a client that is gone. */
  ghost predicate BoxHeld(s: State) {
    forall id :: id in s.ops && UsesBox(s.cfg, s.ops[id]) ==> s.box
  }

  /** Each call that has been answered was answered once. */
  ghost predicate LoggedOnce(s: State) {
    && (forall id :: id in s.log <==> id in s.ops && s.ops[id].phase.Finished?)
    && (forall i, j :: 0 <= i < j < |s.log| ==> s.log[i] != s.log[j])
  }

  /** A store that nobody holds is empty. */
  ghost predicate Closed(s: State) {
    StoreAlive(s) || s.cache == map[]
  }

  ghost predicate Inv(s: State) {
    AllFit(s) && !s.misuse && Contexts(s) && Clones(s) && BoxHeld(s) && LoggedOnce(s) && Closed(s)
  }

  lemma TaskAlive(s: State, id: OpId)
    requires Inv(s) && id in s.ops && Spawned(s.ops[id])
    ensures StoreAlive(s) && (s.cfg.async ==> s.clones > 0)
  {
    assert id in Tasks(s.ops);
  }

  lemma StepIsSafe(s: State, step: Step)
    requires Inv(s) && Enabled(s, step)
    ensures !Apply(s, step).misuse
  {
    if IsAnswered(step) {
      AnswerIsSafe(s, step);
    } else if step.Finish? {
      FinishIsSafe(s, step.id);
    } else {
      OtherStepIsSafe(s, step);
    }
  }

  lemma AnswerIsSafe(s: State, step: Step)
    requires Inv(s) && Enabled(s, step) && IsAnswered(step)
    ensures !Apply(s, step).misuse
  {
    assert Fits(s.ops[step.id]);
    TaskAlive(s, step.id);
  }

  lemma FinishIsSafe(s: State, id: OpId)
    requires Inv(s) && Enabled(s, Finish(id))
    ensures !DoFinish(s, id).misuse
  {
    if s.ops[id].asked {
      TaskAlive(s, id);
    }
  }

  lemma OtherStepIsSafe(s: State, step: Step)
    requires Inv(s) && Enabled(s, step) && !IsAnswered(step) && !step.Finish?
    ensures !Apply(s, step).misuse
  {
  }

  /** Only a task in flight inserts, and it holds the store. */
  lemma StepKeepsClosed(s: State, step: Step)
    requires Inv(s) && Enabled(s, step)
    ensures Closed(Apply(s, step))
  {
    if step.GotValue? || step.GotStored? {
      TaskAlive(s, step.id);
    } else if step.Finish? {
      FinishCloses(s, step.id);
    }
  }

  lemma FinishCloses(s: State, id: OpId)
    requires Closed(s) && id in s.ops && s.ops[id].phase.Returning?
    ensures Closed(DoFinish(s, id))
  {
  }

  lemma StepKeepsBox(s: State, step: Step)
    requires BoxHeld(s) && Enabled(s, step)
    ensures BoxHeld(Apply(s, step))
  {
  }

  lemma StepKeepsClones(s: State, step: Step)
    requires Inv(s) && Enabled(s, step)
    ensures Clones(Apply(s, step))
  {
    if CallStep(step) || step.Begin? {
      if step.id in s.ops && Spawned(s.ops[step.id]) {
        TaskAlive(s, step.id);
      }
      CallClones(s, Apply(s, step), step);
      CallKeepsClones(s, Apply(s, step), step.id);
    }
  }

  /** A task takes its handle when it is spawned and drops it when its callback has run. */
  ghost predicate CloneStep(s: State, t: State, id: OpId) {
    && id in t.ops && t.ops == s.ops[id := t.ops[id]] && t.box == s.box && t.cfg == s.cfg
    && var before, after := id in s.ops && Spawned(s.ops[id]), Spawned(t.ops[id]);
    t.clones == s.clones + if !s.cfg.async || before == after then 0 else if after then 1 else -1
  }

  lemma CallClones(s: State, t: State, step: Step)
    requires Enabled(s, step) && (CallStep(step) || step.Begin?) && t == Apply(s, step)
    requires step.id in s.ops ==> Fits(s.ops[step.id]) && (Spawned(s.ops[step.id]) && s.cfg.async ==> s.clones > 0)
    ensures CloneStep(s, t, step.id)
  {
    if LooksUp(step) {
      LookupClones(s, t, step);
    } else if step.Finish? {
      FinishClones(s, step.id);
    } else {
      OtherCallClones(s, t, step);
    }
  }

  lemma LookupClones(s: State, t: State, step: Step)
    requires Enabled(s, step) && LooksUp(step) && t == Apply(s, step) && Fits(s.ops[step.id])
    ensures CloneStep(s, t, step.id)
  {
  }

  lemma FinishClones(s: State, id: OpId)
    requires id in s.ops && s.ops[id].phase.Returning? && (Spawned(s.ops[id]) && s.cfg.async ==> s.clones > 0)
    ensures CloneStep(s, DoFinish(s, id), id)
  {
  }

  lemma OtherCallClones(s: State, t: State, step: Step)
    requires Enabled(s, step) && (step.Begin? || IsServed(step) || IsAnswered(step)) && t == Apply(s, step)
    requires step.id in s.ops ==> Fits(s.ops[step.id])
    ensures CloneStep(s, t, step.id)
  {
  }

  lemma CallKeepsClones(s: State, t: State, id: OpId)
    requires Clones(s) && CloneStep(s, t, id)
    ensures Clones(t)
  {
    TasksAfter(s.ops, id, t.ops[id]);
  }

  lemma StepKeepsContexts(s: State, step: Step)
    requires OwnContexts(s) && Enabled(s, step) && s.cfg.async
    ensures OwnContexts(Apply(s, step))
  {
    if step.Begin? {
      BeginKeepsContexts(s, step.id, step.ctx, step.call);
    } else if step.Finish? {
      FinishKeepsContexts(s, step.id);
    } else if CallStep(step) {
      CallContinues(s, step, Apply(s, step));
      OpKeepsContexts(s, Apply(s, step), step.id);
    } else {
      OtherStepKeepsContexts(s, step);
    }
  }

  lemma BeginKeepsContexts(s: State, id: OpId, ctx: Ctx, call: Call)
    requires OwnContexts(s) && s.cfg.async && Enabled(s, Begin(id, ctx, call))
    ensures OwnContexts(DoBegin(s, id, ctx, call))
  {
    OpKeepsContexts(s, DoBegin(s, id, ctx, call), id);
  }

  lemma FinishKeepsContexts(s: State, id: OpId)
    requires OwnContexts(s) && s.cfg.async && Enabled(s, Finish(id))
    ensures OwnContexts(DoFinish(s, id))
  {
    OpKeepsContexts(s, DoFinish(s, id), id);
  }

  lemma OtherStepKeepsContexts(s: State, step: Step)
    requires OwnContexts(s) && Enabled(s, step) && !step.Begin? && !CallStep(step)
    ensures OwnContexts(Apply(s, step))
  {
    OtherStepKeepsCalls(s, step, Apply(s, step));
    SameKeepsContexts(s, Apply(s, step));
  }

  lemma SameKeepsContexts(s: State, t: State)
    requires OwnContexts(s) && t.ops == s.ops && t.ctxs == s.ctxs
    ensures OwnContexts(t)
  {
  }

  /** A call may come with a new context, keep its context, or end and give it up. */
  ghost predicate OwnContextStep(s: State, t: State, id: OpId)
    requires id in t.ops
  {
    if id in s.ops then
      && Pending(s.ops[id]) && t.ops[id].ctx == s.ops[id].ctx
      && t.ctxs == if Pending(t.ops[id]) then s.ctxs else s.ctxs - {s.ops[id].ctx}
    else
      Pending(t.ops[id]) && t.ops[id].ctx !in s.ctxs && t.ctxs == s.ctxs + {t.ops[id].ctx}
  }

  lemma OpKeepsContexts(s: State, t: State, id: OpId)
    requires OwnContexts(s) && id in t.ops && t.ops == s.ops[id := t.ops[id]]
    requires OwnContextStep(s, t, id)
    ensures OwnContexts(t)
  {
    forall c | c in t.ctxs ensures exists j :: j in t.ops && Pending(t.ops[j]) && t.ops[j].ctx == c {
      if c in s.ctxs {
        var j :| j in s.ops && Pending(s.ops[j]) && s.ops[j].ctx == c;
        assert t.ops[j].ctx == c;
      } else {
        assert t.ops[id].ctx == c;
      }
    }
  }

  lemma FinishLogsOnce(s: State, id: OpId)
    requires LoggedOnce(s) && id in s.ops && s.ops[id].phase.Returning?
    ensures LoggedOnce(DoFinish(s, id))
  {
    var t := DoFinish(s, id);
    assert id !in s.log;
    forall j ensures j in t.log <==> j in s.log || j == id {
    }
  }

  lemma StepLogsOnce(s: State, step: Step)
    requires LoggedOnce(s) && Enabled(s, step)
    ensures LoggedOnce(Apply(s, step))
  {
    if step.Finish? {
      FinishLogsOnce(s, step.id);
    } else if step.Begin? {
      CallLogsNothing(s, DoBegin(s, step.id, step.ctx, step.call), step.id);
    } else if CallStep(step) {
      CallContinues(s, step, Apply(s, step));
      CallLogsNothing(s, Apply(s, step), step.id);
    } else {
      OtherStepLogsNothing(s, step);
    }
  }

  lemma OtherStepLogsNothing(s: State, step: Step)
    requires LoggedOnce(s) && Enabled(s, step) && !step.Begin? && !CallStep(step)
    ensures LoggedOnce(Apply(s, step))
  {
    OtherStepKeepsCalls(s, step, Apply(s, step));
  }

  lemma CallLogsNothing(s: State, t: State, id: OpId)
    requires LoggedOnce(s) && t.log == s.log && id in t.ops && t.ops == s.ops[id := t.ops[id]]
    requires Pending(t.ops[id]) && (id in s.ops ==> Pending(s.ops[id]))
    ensures LoggedOnce(t)
  {
  }

  lemma StepKeepsInv(t: State, step: Step)
    requires Inv(t) && Enabled(t, step)
    ensures Inv(Apply(t, step))
  {
    StepKeepsFit(t, step);
    StepIsSafe(t, step);
    StepKeepsClones(t, step);
    StepKeepsClosed(t, step);
    StepKeepsBox(t, step);
    if t.cfg.async {
      StepKeepsContexts(t, step);
    }
    StepLogsOnce(t, step);
  }

  /**
   Destroying a client at any moment its callers allow is safe: in no reachable state has a step touched a
   dead client, a dead cache store or a dead context.
   */
  lemma {:induction false} NoUseAfterDestroy(d: Discipline, s: State, steps: seq<Step>)
    requires Init(s) && Run(d, s, steps)
    ensures Inv(After(s, steps))
    decreases |steps|
  {
    if steps != [] {
      var n := |steps| - 1;
      NoUseAfterDestroy(d, s, steps[..n]);
      var t, step := After(s, steps[..n]), steps[n];
      StepKeepsInv(t, step);
    }
  }

  /** A schedule that cannot be continued has run every callback: none is live, and each ran once. */
  lemma {:induction false} QuiescentMeansComplete(d: Discipline, s: State, steps: seq<Step>)
    requires Init(s) && Run(d, s, steps)
    requires forall step :: CallStep(step) ==> !Enabled(After(s, steps), step)
    ensures
      var t := After(s, steps);
      && t.ctxs == {}
      && (forall id :: id in t.ops ==> t.ops[id].phase.Finished? && id in t.log)
      && t.clones == if t.box then 1 else 0
  {
    var t := After(s, steps);
    NoUseAfterDestroy(d, s, steps);
    forall id | id in t.ops ensures !Pending(t.ops[id]) {
      if Pending(t.ops[id]) {
        var step := PendingCanStep(t, id, Free);
      }
    }
    assert Tasks(t.ops) == {};
  }

  /**
   The store lives exactly as long as the client box, or a task in flight of an asynchronous client, holds a
   handle on it; after that it has no entry.
   */
  lemma {:induction false} StoreLivesWhileHeld(d: Discipline, s: State, steps: seq<Step>)
    requires Init(s) && Run(d, s, steps)
    ensures
      var t := After(s, steps);
      && (StoreAlive(t) <==> t.box || (t.cfg.async && exists id :: id in t.ops && Spawned(t.ops[id])))
      && (!StoreAlive(t) ==> t.cache == map[])
  {
    NoUseAfterDestroy(d, s, steps);
    HeldMeansAlive(After(s, steps));
  }

  lemma HeldMeansAlive(t: State)
    requires Inv(t)
    ensures StoreAlive(t) <==> t.box || (t.cfg.async && exists id :: id in t.ops && Spawned(t.ops[id]))
  {
    if id :| id in t.ops && Spawned(t.ops[id]) {
      assert id in Tasks(t.ops);
    } else {
      assert Tasks(t.ops) == {};
    }
  }

  /**
   A null argument, bad UTF-8 or a hit spawns nothing, asks the server nothing, and leaves the call only its
   callback to run. A bad argument is rejected before anything is looked up or counted. That the native function
   runs the callback before it returns is what CppAsync.GetRefAsync shows.
   */
  lemma InlineCallsSpawnNothing(s: State, step: Step)
    requires AllFit(s) && CallStep(step) && Enabled(s, step) && s.ops[step.id].phase.Entered?
    requires Malformed(s.ops[step.id].call) || step.Hit?
    ensures
      var t := Apply(s, step);
      && t.clones == s.clones && t.history == s.history && Tasks(t.ops) == Tasks(s.ops) && t.cache == s.cache
      && t.misses == s.misses && !t.ops[step.id].asked
      && (if step.Hit? then t.ops[step.id].phase.answer.Found?
          else t.hits == s.hits && t.ops[step.id].phase.answer == Failed(InvalidInput))
      && Enabled(t, Finish(step.id))
      && (forall next :: CallStep(next) && next.id == step.id && Enabled(t, next) ==> next == Finish(step.id))
  {
    var t := Apply(s, step);
    assert Fits(s.ops[step.id]);
    InlineStep(s, step);
    TasksAfter(s.ops, step.id, t.ops[step.id]);
    forall next | CallStep(next) && next.id == step.id && Enabled(t, next) ensures next == Finish(step.id) {
      OnlyFinishIsLeft(t, next);
    }
  }

  lemma InlineStep(s: State, step: Step)
    requires CallStep(step) && Enabled(s, step) && s.ops[step.id].phase.Entered? && !s.ops[step.id].asked
    requires Malformed(s.ops[step.id].call) || step.Hit?
    ensures step.Reject? || step.Hit?
  {
  }

  lemma OnlyFinishIsLeft(t: State, next: Step)
    requires CallStep(next) && Enabled(t, next) && t.ops[next.id].phase.Returning? && !t.ops[next.id].asked
    ensures next == Finish(next.id)
  {
  }
}
