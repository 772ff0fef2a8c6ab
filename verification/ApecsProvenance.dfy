/**
 Where STORAGE steps get their offset from. Submitted steps are PROCESS steps; a STORAGE
 step is made of a create, added by the handler of a PROCESS step of the same concern, or
 injected for a cache miss. The result is that no run reaches the "Nil offset" error and
 that every STORAGE step but an injected read runs right behind the PROCESS step of its
 concern, with that step's offset.
 */
module ApecsProvenance {
  import opened Wrappers
  import opened Offsets
  import opened ApecsTxns
  import opened ApecsRunners
  import opened ApecsInvariants

  /** What prepareApecsSteps submits. */
  predicate Submitted<B>(steps: seq<Step<B>>) {
    forall i :: 0 <= i < |steps| ==> steps[i].system.Process? && steps[i].cmpdOffset.None? && steps[i].result.None?
  }

  /** What the generated handlers add behind `step`: at most a STORAGE step of the same
      concern, first and without offset, when `step` is a PROCESS step; nothing at all
      behind a create validation. */
  predicate HandlerChains<B>(step: Step<B>, more: seq<Step<B>>) {
    && (IsValidateCreate(step) ==> more == [])
    && forall i :: 0 <= i < |more| && !more[i].system.Process? ==>
         i == 0 && step.system.Process? && more[i].system.Storage? && more[i].cmpdOffset.None?
         && !more[i].command.Read? && more[i].concern == step.concern
  }

  predicate IsValidateCreate<B>(step: Step<B>) { step.system.Process? && step.command.ValidateCreate? }

  /** A STORAGE step still ahead waits, without offset, right behind a create validation. */
  predicate Awaiting<B>(steps: seq<Step<B>>, i: int)
    requires 0 < i < |steps|
  {
    !steps[i].system.Process? ==>
      && steps[i].system.Storage? && steps[i].cmpdOffset.None?
      && IsValidateCreate(steps[i - 1]) && steps[i - 1].concern == steps[i].concern
  }

  /** A STORAGE step about to run: an injected read with an offset, or one that carries the
      offset of the PROCESS step of the same concern right before it. */
  predicate Sourced<B>(steps: seq<Step<B>>, i: int)
    requires 0 <= i < |steps|
  {
    !steps[i].system.Process? ==>
      && steps[i].system.Storage? && steps[i].cmpdOffset.Some?
      && (steps[i].command.Read? ||
          (i > 0 && steps[i - 1].system.Process? && steps[i - 1].concern == steps[i].concern
           && steps[i - 1].cmpdOffset == steps[i].cmpdOffset))
  }

  predicate Chained<B>(txn: Txn<B>)
    requires InRange(txn)
  {
    && Sourced(txn.forwardSteps, txn.currentStepIdx)
    && forall i :: txn.currentStepIdx < i < |txn.forwardSteps| ==> Awaiting(txn.forwardSteps, i)
  }

  lemma {:induction false} ExpandAwaits<B>(steps: seq<Step<B>>)
    requires Submitted(steps)
    ensures var e := ExpandAll(steps);
            && (e != [] ==> e[0].system.Process?)
            && forall i :: 0 < i < |e| ==> Awaiting(e, i)
  {
    if steps != [] {
      var e, rest := ExpandAll(steps), ExpandAll(steps[1..]);
      ExpandAwaits(steps[1..]);
      var k := |Expand(steps[0])|;
      forall i | 0 < i < |e| ensures Awaiting(e, i) {
        if i > k {
          assert Awaiting(rest, i - k) && e[i] == rest[i - k] && e[i - 1] == rest[i - k - 1];
        } else if i == k {
          assert e[i] == rest[0];
        }
      }
    }
  }

  lemma NewTxnChained<B>(id: string, assoc: Option<AssocTxn>, target: Option<TopicTarget>, uponError: UponError,
                         steps: seq<Step<B>>)
    requires id != "" && steps != [] && Submitted(steps)
    ensures var r := NewApecsTxn(id, assoc, target, uponError, steps);
            r.Some? ==> InFlight(r.value) && Chained(r.value)
  {
    assert FreshSteps(steps);
    NewTxnInFlight(id, assoc, target, uponError, steps);
    ExpandAwaits(steps);
  }

  lemma DetourChained<B>(t: Txn<B>, off: CompoundOffset)
    requires InRange(t) && Current(t).system.Process? && !IsKeylessStep(Current(t))
    requires forall i :: t.currentStepIdx < i < |t.forwardSteps| ==> Awaiting(t.forwardSteps, i)
    ensures InRange(Detour(t, off)) && Chained(Detour(t, off))
  {
    var n, d := t.currentStepIdx, Detour(t, off);
    assert n + 1 < |t.forwardSteps| ==> Awaiting(t.forwardSteps, n + 1);
    forall i | n < i < |d.forwardSteps| ensures Awaiting(d.forwardSteps, i) {
      if !Current(t).command.Read? && i > n + 1 {
        assert Awaiting(t.forwardSteps, i - 1);
        assert d.forwardSteps[i] == t.forwardSteps[i - 1] && d.forwardSteps[i - 1] == t.forwardSteps[i - 2];
      } else if Current(t).command.Read? {
        assert Awaiting(t.forwardSteps, i);
      }
    }
  }

  lemma FinishChained<B>(t: Txn<B>, off: CompoundOffset, inst: Option<B>, outcome: Outcome<B>, produceOk: bool)
    requires InRange(t) && Current(t).cmpdOffset.Some?
    requires forall i :: t.currentStepIdx < i < |t.forwardSteps| ==> Awaiting(t.forwardSteps, i)
    requires HandlerChains(Current(t), outcome.addSteps)
    requires Finish(t, off, inst, outcome, produceOk).Forwarded?
    ensures var f := Finish(t, off, inst, outcome, produceOk); InRange(f.txn) && Chained(f.txn)
  {
    var n, more, f := t.currentStepIdx, outcome.addSteps, Finish(t, off, inst, outcome, produceOk);
    var settled := SetCurrent(t, Settle(Current(t), outcome.result.value, inst));
    var grown := InsertAt(settled.forwardSteps, n + 1, more);
    assert grown[n] == Settle(Current(t), outcome.result.value, inst);
    assert forall i :: n < i <= n + |more| ==> grown[i] == more[i - n - 1];
    assert forall i :: n + |more| < i < |grown| ==> grown[i] == t.forwardSteps[i - |more|];
    assert n + 1 < |t.forwardSteps| ==> Awaiting(t.forwardSteps, n + 1);
    assert f.txn.forwardSteps == grown[n + 1 := Inherit(grown[n + 1], grown[n], off)];
    forall i | n + 1 < i < |grown| ensures Awaiting(f.txn.forwardSteps, i) {
      if i > n + |more| {
        assert Awaiting(t.forwardSteps, i - |more|);
      }
    }
  }

  lemma AdvanceChained<B>(txn: Txn<B>, v: Visit<B>)
    requires InFlight(txn) && Chained(txn)
    requires HandlerChains(Current(txn), v.outcome.addSteps)
    requires Advance(txn, v).Forwarded?
    ensures InRange(Advance(txn, v).txn) && Chained(Advance(txn, v).txn)
  {
    var t, n := Stamped(txn, v.topic, v.off), txn.currentStepIdx;
    forall i | n < i < |t.forwardSteps| ensures Awaiting(t.forwardSteps, i) {
      assert Awaiting(txn.forwardSteps, i);
    }
    match Admit(txn, v.topic, v.off, v.insts)
    case Missed => DetourChained(t, v.off);
    case Admitted(inst) => FinishChained(t, v.off, inst, v.outcome, v.produceOk);
    case Rejected(_) =>
  }

  /** Every visit the handlers answer within their contract. */
  ghost predicate ContractRun<B>(txns: seq<Txn<B>>, visits: seq<Visit<B>>) {
    && IsRun(txns, visits)
    && forall i :: 0 <= i < |visits| ==> HandlerChains(Current(txns[i]), visits[i].outcome.addSteps)
  }

  lemma {:induction false} RunChained<B>(txns: seq<Txn<B>>, visits: seq<Visit<B>>, j: nat)
    requires ContractRun(txns, visits) && InFlight(txns[0]) && Chained(txns[0]) && j < |txns|
    ensures InFlight(txns[j]) && Chained(txns[j])
    decreases j
  {
    RunKeepsPrefix(txns, visits, 0, j);
    if j > 0 {
      RunChained(txns, visits, j - 1);
      AdvanceChained(txns[j - 1], visits[j - 1]);
    }
  }

  /** In every message of every run of a submitted transaction, a STORAGE step that comes to
      run has its offset, from the PROCESS step of its concern right before it unless it is
      an injected read; and the "Nil offset" error cannot arise: the one INTERNAL rejection
      left is a PROCESS create of an instance that exists. */
  lemma OffsetProvenance<B>(id: string, assoc: Option<AssocTxn>, target: Option<TopicTarget>, uponError: UponError,
                            steps: seq<Step<B>>, txns: seq<Txn<B>>, visits: seq<Visit<B>>, j: nat, topic: Topic,
                            off: CompoundOffset, insts: map<string, B>)
    requires id != "" && steps != [] && Submitted(steps)
    requires ContractRun(txns, visits) && j < |txns|
    requires NewApecsTxn(id, assoc, target, uponError, steps) == Some(txns[0])
    ensures InRange(txns[j]) && Sourced(txns[j].forwardSteps, txns[j].currentStepIdx)
    ensures Admit(txns[j], topic, off, insts) == Rejected(Internal) ==>
              NeedsInstance(Current(txns[j])) && Current(txns[j]).command.Create?
  {
    NewTxnChained(id, assoc, target, uponError, steps);
    RunChained(txns, visits, j);
  }
}
