// What the hit and miss counters count (core-sdk/src/cache.rs).
module Counters {
  import opened Common
  import opened Machine
  import opened Calls

  /** The gets that have done their cache lookup. */
  function Lookups(ops: map<OpId, Op>): set<OpId> {
    set id | id in ops && ops[id].call.Get? && KeyOf(ops[id].call).Some? && !ops[id].phase.Entered?
  }

  /** The gets for which a fetch from the server was queued, is running, or has ended. */
  function Fetches(ops: map<OpId, Op>): set<OpId> {
    set id | id in ops && ops[id].call.Get? && ops[id].asked
  }

  predicate Tallied(hits: nat, misses: nat, lookups: set<OpId>, fetches: set<OpId>) {
    misses == |fetches| % WORD && hits == |lookups - fetches| % WORD && fetches <= lookups
  }

  ghost predicate Accounted(s: State) {
    Tallied(s.hits, s.misses, Lookups(s.ops), Fetches(s.ops))
  }

  /** A counter goes on counting. */
  lemma NextWord(c: nat, n: nat)
    requires c == n % WORD
    ensures (c + 1) % WORD == (n + 1) % WORD
  {
  }

  /** One more lookup, and one more of exactly one counter. */
  lemma CountOne(hits: nat, misses: nat, l: set<OpId>, f: set<OpId>, id: OpId, asked: bool)
    requires Tallied(hits, misses, l, f) && id !in l
    ensures if asked then Tallied(hits, (misses + 1) % WORD, l + {id}, f + {id})
            else Tallied((hits + 1) % WORD, misses, l + {id}, f)
  {
    NextWord(hits, |l - f|);
    NextWord(misses, |f|);
    if asked {
      assert (l + {id}) - (f + {id}) == l - f;
    } else {
      assert (l + {id}) - f == (l - f) + {id};
    }
  }

  /** A get that does its lookup. */
  lemma LookupCounts(ops: map<OpId, Op>, id: OpId, op: Op)
    requires id !in Lookups(ops) && id !in Fetches(ops)
    requires op.call.Get? && KeyOf(op.call).Some? && !op.phase.Entered?
    ensures Lookups(ops[id := op]) == Lookups(ops) + {id}
    ensures Fetches(ops[id := op]) == if op.asked then Fetches(ops) + {id} else Fetches(ops)
  {
  }

  lemma LookupMoves(s: State, step: Step, t: State)
    requires AllFit(s) && Enabled(s, step) && (step.Hit? || step.Miss?) && t == Apply(s, step)
    ensures step.id !in Lookups(s.ops) && step.id !in Fetches(s.ops)
    ensures Lookups(t.ops) == Lookups(s.ops) + {step.id}
    ensures Fetches(t.ops) == if step.Miss? then Fetches(s.ops) + {step.id} else Fetches(s.ops)
    ensures t.hits == if step.Hit? then (s.hits + 1) % WORD else s.hits
    ensures t.misses == if step.Miss? then (s.misses + 1) % WORD else s.misses
  {
    assert Fits(s.ops[step.id]);
    LookupCounts(s.ops, step.id, t.ops[step.id]);
  }

  lemma Recount(s: State, t: State, id: OpId, asked: bool)
    requires Accounted(s) && id !in Lookups(s.ops) && Lookups(t.ops) == Lookups(s.ops) + {id}
    requires Fetches(t.ops) == if asked then Fetches(s.ops) + {id} else Fetches(s.ops)
    requires t.hits == if asked then s.hits else (s.hits + 1) % WORD
    requires t.misses == if asked then (s.misses + 1) % WORD else s.misses
    ensures Accounted(t)
  {
    CountOne(s.hits, s.misses, Lookups(s.ops), Fetches(s.ops), id, asked);
  }

  lemma LookupIsCounted(s: State, step: Step, t: State)
    requires AllFit(s) && Accounted(s) && Enabled(s, step) && (step.Hit? || step.Miss?) && t == Apply(s, step)
    ensures Accounted(t)
  {
    LookupMoves(s, step, t);
    Recount(s, t, step.id, step.Miss?);
  }

  lemma OpDoesNotCount(ops: map<OpId, Op>, id: OpId, op: Op)
    requires op.call.Get? ==> (id in Lookups(ops) <==> KeyOf(op.call).Some? && !op.phase.Entered?)
    requires op.call.Get? ==> (id in Fetches(ops) <==> op.asked)
    requires op.call.Set? ==> id !in Lookups(ops) && id !in Fetches(ops)
    ensures Lookups(ops[id := op]) == Lookups(ops) && Fetches(ops[id := op]) == Fetches(ops)
  {
  }

  /** Only a lookup moves the counters: sets, releases, clears and everything else change neither. */
  lemma OtherStepsDoNotCount(s: State, step: Step)
    requires AllFit(s) && Enabled(s, step) && !step.Hit? && !step.Miss?
    ensures Apply(s, step).hits == s.hits && Apply(s, step).misses == s.misses
    ensures Lookups(Apply(s, step).ops) == Lookups(s.ops) && Fetches(Apply(s, step).ops) == Fetches(s.ops)
  {
    if CallStep(step) || step.Begin? {
      CallCountsNothing(s, Apply(s, step), step);
    }
  }

  lemma CallCountsNothing(s: State, t: State, step: Step)
    requires AllFit(s) && Enabled(s, step) && (CallStep(step) || step.Begin?) && !step.Hit? && !step.Miss?
    requires t == Apply(s, step)
    ensures Lookups(t.ops) == Lookups(s.ops) && Fetches(t.ops) == Fetches(s.ops)
  {
    if step.id in s.ops {
      assert Fits(s.ops[step.id]);
    }
    OpDoesNotCount(s.ops, step.id, t.ops[step.id]);
  }

  lemma StepCounts(s: State, step: Step)
    requires AllFit(s) && Accounted(s) && Enabled(s, step)
    ensures Accounted(Apply(s, step))
  {
    if step.Hit? || step.Miss? {
      LookupIsCounted(s, step, Apply(s, step));
    } else {
      OtherStepsDoNotCount(s, step);
    }
  }

  lemma {:induction false} AccountedAlways(d: Discipline, s: State, steps: seq<Step>)
    requires Init(s) && Run(d, s, steps)
    ensures AllFit(After(s, steps)) && Accounted(After(s, steps))
    decreases |steps|
  {
    if steps == [] {
      assert Lookups(s.ops) == {} && Fetches(s.ops) == {};
    } else {
      var n := |steps| - 1;
      AccountedAlways(d, s, steps[..n]);
      StepKeepsFit(After(s, steps[..n]), steps[n]);
      StepCounts(After(s, steps[..n]), steps[n]);
    }
  }

  lemma WrappedSum(a: nat, b: nat)
    ensures (a % WORD + b % WORD) % WORD == (a + b) % WORD
  {
    assert a == a / WORD * WORD + a % WORD && b == b / WORD * WORD + b % WORD;
    assert a + b == (a / WORD + b / WORD) * WORD + (a % WORD + b % WORD);
  }

  /**
   Misses are the fetches, hits the lookups that led to none: exactly so for fewer than 2 to the 64 lookups, and
   after that as 64-bit words, in which the two still add up to the lookups.
   */
  predicate AddUp(hits: nat, misses: nat, lookups: nat, fetches: nat) {
    && fetches <= lookups
    && (lookups < 0x1_0000_0000_0000_0000 ==> misses == fetches && hits == lookups - fetches)
    && misses == fetches % 0x1_0000_0000_0000_0000
    && (hits + misses) % 0x1_0000_0000_0000_0000 == lookups % 0x1_0000_0000_0000_0000
  }

  lemma TallyAddsUp(hits: nat, misses: nat, l: set<OpId>, f: set<OpId>)
    requires Tallied(hits, misses, l, f)
    ensures AddUp(hits, misses, |l|, |f|)
  {
    assert l == (l - f) + f;
    WrappedSum(|l - f|, |f|);
  }

  /**
   In every reachable state the two counters are the numbers of lookups that hit and of fetches that are queued,
   running or ended.
   */
  lemma {:induction false} CounterAccounting(d: Discipline, s: State, steps: seq<Step>)
    requires Init(s) && Run(d, s, steps)
    ensures
      var t := After(s, steps);
      AddUp(t.hits, t.misses, |Lookups(t.ops)|, |Fetches(t.ops)|)
  {
    AccountedAlways(d, s, steps);
    var t := After(s, steps);
    TallyAddsUp(t.hits, t.misses, Lookups(t.ops), Fetches(t.ops));
  }
}
