/** What every visit keeps, and what follows for every run of a transaction. */
module ApecsInvariants {
  import opened Wrappers
  import opened Offsets
  import opened ApecsTxns
  import opened ApecsRunners

  // ---------- the completed prefix ----------

  lemma FailCurrentLawful<B>(txn: Txn<B>, t: Txn<B>, code: Code)
    requires InFlight(txn) && InFlight(t) && SameTransaction(txn, t) && t.currentStepIdx == txn.currentStepIdx
    requires t.forwardSteps[..txn.currentStepIdx] == txn.forwardSteps[..txn.currentStepIdx]
    requires !code.Ok?
    ensures LawfulFate(txn, FailAt(t, t.currentStepIdx, code))
  {
    var n := txn.currentStepIdx;
    var f := FailAt(t, n, code);
    assert t.forwardSteps[n..][0].result.None?;
    assert !DoneOk(f.txn.forwardSteps[n]);
  }

  lemma StampedInFlight<B>(txn: Txn<B>, topic: Topic, off: CompoundOffset)
    requires InFlight(txn)
    ensures var t := Stamped(txn, topic, off);
            && InFlight(t) && SameTransaction(txn, t) && t.currentStepIdx == txn.currentStepIdx
            && |t.forwardSteps| == |txn.forwardSteps|
            && t.forwardSteps[..txn.currentStepIdx] == txn.forwardSteps[..txn.currentStepIdx]
            && t.forwardSteps[txn.currentStepIdx + 1..] == txn.forwardSteps[txn.currentStepIdx + 1..]
  {
    var t, n := Stamped(txn, topic, off), txn.currentStepIdx;
    assert txn.forwardSteps[n..][0] == txn.forwardSteps[n];
    forall i | 0 <= i < |t.forwardSteps[n..]| ensures t.forwardSteps[n..][i].result.None? {
      assert txn.forwardSteps[n..][i].result.None?;
    }
  }

  lemma DetourLawful<B>(txn: Txn<B>, t: Txn<B>, off: CompoundOffset, produceOk: bool)
    requires InFlight(txn) && InFlight(t) && SameTransaction(txn, t) && t.currentStepIdx == txn.currentStepIdx
    requires t.forwardSteps[..txn.currentStepIdx] == txn.forwardSteps[..txn.currentStepIdx]
    ensures var d := Detour(t, off);
            && InFlight(d)
            && LawfulFate(txn, if produceOk then Forwarded(d) else FailAt(d, 0, Internal))
  {
    var n, d := txn.currentStepIdx, Detour(t, off);
    assert t.forwardSteps[n..][0] == t.forwardSteps[n];
    assert d.forwardSteps[n] == StorageRead(Current(t), off);
    assert d.forwardSteps[..n] == t.forwardSteps[..n];
    forall i | 0 <= i < |d.forwardSteps|
      ensures ValidSystem(d.forwardSteps[i].system) && (i >= n ==> d.forwardSteps[i].result.None?) {
      if !Current(t).command.Read? && i > n {
        assert d.forwardSteps[i] == t.forwardSteps[i - 1];
        assert t.forwardSteps[n..][i - 1 - n] == t.forwardSteps[i - 1];
      } else if i > n {
        assert t.forwardSteps[n..][i - n] == t.forwardSteps[i];
      }
    }
    var f := FailAt(d, 0, Internal);
    if n > 0 {
      assert d.forwardSteps[..n][0] == d.forwardSteps[0] && DoneOk(d.forwardSteps[0]);
      assert f.txn == d;
    }
    assert !DoneOk(f.txn.forwardSteps[n]);
  }

  lemma ProduceNextLawful<B>(txn: Txn<B>, t: Txn<B>, off: CompoundOffset, produceOk: bool)
    requires InFlight(txn) && SameTransaction(txn, t) && t.currentStepIdx == txn.currentStepIdx && Validate(t)
    requires t.forwardSteps[..txn.currentStepIdx] == txn.forwardSteps[..txn.currentStepIdx]
    requires DoneOk(Current(t)) && NoResults(t.forwardSteps[txn.currentStepIdx + 1..])
    ensures LawfulFate(txn, ProduceNext(t, off, produceOk))
  {
    var n, f := txn.currentStepIdx, ProduceNext(t, off, produceOk);
    assert forall i :: 0 <= i < n ==> t.forwardSteps[i] == txn.forwardSteps[..n][i];
    assert forall i :: n < i < |t.forwardSteps| ==> t.forwardSteps[i] == t.forwardSteps[n + 1..][i - n - 1];
    if n + 1 < |t.forwardSteps| {
      assert f.txn.forwardSteps[..n] == txn.forwardSteps[..n];
      if f.Failed? {
        assert !DoneOk(f.txn.forwardSteps[n + 1]);
      }
    }
  }

  lemma FinishLawful<B>(txn: Txn<B>, t: Txn<B>, off: CompoundOffset, inst: Option<B>, outcome: Outcome<B>,
                        produceOk: bool)
    requires InFlight(txn) && InFlight(t) && SameTransaction(txn, t) && t.currentStepIdx == txn.currentStepIdx
    requires t.forwardSteps[..txn.currentStepIdx] == txn.forwardSteps[..txn.currentStepIdx]
    requires FreshSteps(outcome.addSteps)
    ensures LawfulFate(txn, Finish(t, off, inst, outcome, produceOk))
  {
    var n := txn.currentStepIdx;
    if outcome.result.None? {
      FailCurrentLawful(txn, t, if t.uponError.Bailout? then NilResult else Internal);
    } else if !outcome.result.value.code.Ok? {
      var f := Finish(t, off, inst, outcome, produceOk);
      assert !DoneOk(f.txn.forwardSteps[n]);
    } else {
      GrownLawful(txn, t, off, Settle(Current(t), outcome.result.value, inst), outcome.addSteps, produceOk);
    }
  }

  /** The current step settled, others added behind it, and the message sent on. */
  lemma GrownLawful<B>(txn: Txn<B>, t: Txn<B>, off: CompoundOffset, step: Step<B>, more: seq<Step<B>>, produceOk: bool)
    requires InFlight(txn) && InFlight(t) && SameTransaction(txn, t) && t.currentStepIdx == txn.currentStepIdx
    requires t.forwardSteps[..txn.currentStepIdx] == txn.forwardSteps[..txn.currentStepIdx]
    requires FreshSteps(more) && DoneOk(step) && ValidSystem(step.system)
    ensures var settled := SetCurrent(t, step);
            LawfulFate(txn, ProduceNext(settled.(forwardSteps := InsertAt(settled.forwardSteps, t.currentStepIdx + 1,
                                                                          more)), off, produceOk))
  {
    var n, s := t.currentStepIdx, t.forwardSteps;
    Spliced(s, n, step, more);
    var grown := SetCurrent(t, step).(forwardSteps := s[..n] + [step] + (more + s[n + 1..]));
    var rest := more + s[n + 1..];
    assert grown.forwardSteps[n + 1..] == rest;
    assert grown.forwardSteps[..n] == s[..n];
    forall i | 0 <= i < |rest| ensures rest[i].result.None? && ValidSystem(rest[i].system) {
      if i >= |more| {
        assert rest[i] == s[n + 1 + i - |more|] == s[n..][1 + i - |more|];
      }
    }
    ProduceNextLawful(txn, grown, off, produceOk);
  }

  function InheritFirst<B>(steps: seq<Step<B>>, done: Step<B>, off: CompoundOffset): seq<Step<B>>
    requires done.result.Some?
  {
    if steps == [] then [] else [Inherit(steps[0], done, off)] + steps[1..]
  }

  /** What a successful handler makes of the step list. */
  lemma FinishShape<B>(t: Txn<B>, off: CompoundOffset, inst: Option<B>, outcome: Outcome<B>)
    requires InFlight(t) && FreshSteps(outcome.addSteps) && outcome.result.Some? && outcome.result.value.code.Ok?
    ensures var n, settled := t.currentStepIdx, Settle(Current(t), outcome.result.value, inst);
            var done, rest := t.forwardSteps[..n] + [settled], outcome.addSteps + t.forwardSteps[n + 1..];
            Finish(t, off, inst, outcome, true) ==
              if rest == [] then Completed(t.(forwardSteps := done))
              else Forwarded(t.(currentStepIdx := n + 1, forwardSteps := done + InheritFirst(rest, settled, off)))
  {
    var n, settled := t.currentStepIdx, Settle(Current(t), outcome.result.value, inst);
    var done, rest := t.forwardSteps[..n] + [settled], outcome.addSteps + t.forwardSteps[n + 1..];
    Spliced(t.forwardSteps, n, settled, outcome.addSteps);
    if rest == [] {
      assert done + rest == done;
    } else {
      var grown := done + rest;
      assert grown[n + 1] == rest[0] && grown[n] == settled;
      assert grown[n + 1 := Inherit(rest[0], settled, off)] == done + InheritFirst(rest, settled, off);
      SplicedValid(t, outcome.addSteps, settled, off);
    }
  }

  lemma Spliced<T>(s: seq<T>, n: nat, x: T, more: seq<T>)
    requires n < |s|
    ensures s[n := x][..n + 1] + more + s[n := x][n + 1..] == s[..n] + [x] + (more + s[n + 1..])
  {
  }

  lemma SplicedValid<B>(t: Txn<B>, more: seq<Step<B>>, settled: Step<B>, off: CompoundOffset)
    requires Validate(t) && FreshSteps(more) && settled.result.Some? && ValidSystem(settled.system)
    requires more + t.forwardSteps[t.currentStepIdx + 1..] != []
    ensures var n := t.currentStepIdx; var rest := more + t.forwardSteps[n + 1..];
            Validate(t.(currentStepIdx := n + 1,
                        forwardSteps := t.forwardSteps[..n] + [settled] + InheritFirst(rest, settled, off)))
  {
    var n := t.currentStepIdx;
    var rest := more + t.forwardSteps[n + 1..];
    forall i | 0 <= i < |rest| ensures ValidSystem(rest[i].system) {
      if i >= |more| { assert rest[i] == t.forwardSteps[n + 1 + i - |more|]; }
    }
  }

  /** The consumer loop is told OK about a message that ended on the error topic exactly when
      there was a next step and it could not be produced. */
  lemma ProduceNextFails<B>(txn: Txn<B>, off: CompoundOffset, produceOk: bool)
    requires InRange(txn) && Current(txn).result.Some?
    ensures var idx, f := txn.currentStepIdx, ProduceNext(txn, off, produceOk);
            && (f.Failed? ==> f.code == Ok)
            && (f.Failed? <==>
                  idx + 1 < |txn.forwardSteps|
                  && var next := Inherit(txn.forwardSteps[idx + 1], Current(txn), off);
                     !(produceOk && Validate(txn.(currentStepIdx := idx + 1,
                                                  forwardSteps := txn.forwardSteps[idx + 1 := next]))))
  {
  }

  /** Every visit to every message in flight: the finished steps stay as they are; a
      forwarded message is in flight again; a completed one has every step OK; a failed one
      has not, and the success flag of ApecsTxnResult tells the two apart. */
  lemma AdvanceLawful<B>(txn: Txn<B>, v: Visit<B>)
    requires InFlight(txn) && FreshSteps(v.outcome.addSteps)
    ensures LawfulFate(txn, Advance(txn, v))
  {
    var t := Stamped(txn, v.topic, v.off);
    StampedInFlight(txn, v.topic, v.off);
    match Admit(txn, v.topic, v.off, v.insts)
    case Rejected(code) => FailCurrentLawful(txn, t, code);
    case Missed => DetourLawful(txn, t, v.off, v.produceOk);
    case Admitted(inst) => FinishLawful(txn, t, v.off, inst, v.outcome, v.produceOk);
  }

  lemma CancelLawful<B>(txn: Txn<B>)
    requires InFlight(txn)
    ensures LawfulFate(txn, Cancel(txn))
  {
    FailCurrentLawful(txn, txn, Cancelled);
  }

  lemma {:induction false} ExpandAllFresh<B>(steps: seq<Step<B>>)
    requires FreshSteps(steps)
    ensures FreshSteps(ExpandAll(steps)) && |ExpandAll(steps)| >= |steps|
  {
    if steps != [] {
      assert FreshSteps(steps[1..]);
      ExpandAllFresh(steps[1..]);
    }
  }

  /** A transaction made by NewApecsTxn from steps that have not run is in flight. */
  lemma NewTxnInFlight<B>(id: string, assoc: Option<AssocTxn>, target: Option<TopicTarget>, uponError: UponError,
                          steps: seq<Step<B>>)
    requires id != "" && steps != [] && FreshSteps(steps)
    ensures var r := NewApecsTxn(id, assoc, target, uponError, steps); r.Some? ==> InFlight(r.value)
  {
    ExpandAllFresh(steps);
  }

  // ---------- whole runs ----------

  /** A run of one transaction: the visits it receives until it leaves the stream. */
  ghost predicate IsRun<B>(txns: seq<Txn<B>>, visits: seq<Visit<B>>) {
    && |txns| == |visits| + 1
    && (forall i :: 0 <= i < |visits| ==> FreshSteps(visits[i].outcome.addSteps))
    && (forall i :: 0 <= i < |visits| ==>
          InRange(txns[i]) && Advance(txns[i], visits[i]) == Forwarded(txns[i + 1]))
  }

  /** Along any run the message stays in flight, and what is finished at one moment is
      found unchanged at every later moment. */
  lemma {:induction false} RunKeepsPrefix<B>(txns: seq<Txn<B>>, visits: seq<Visit<B>>, i: nat, j: nat)
    requires IsRun(txns, visits) && InFlight(txns[0]) && i <= j < |txns|
    ensures InFlight(txns[i]) && InFlight(txns[j]) && SameTransaction(txns[0], txns[j])
    ensures txns[i].currentStepIdx <= txns[j].currentStepIdx
    ensures txns[i].forwardSteps[..txns[i].currentStepIdx] <= txns[j].forwardSteps[..txns[j].currentStepIdx]
    decreases j
  {
    if j > 0 {
      var k := j - 1;
      RunKeepsPrefix(txns, visits, if i == j then k else i, k);
      AdvanceLawful(txns[k], visits[k]);
      if i < j {
        var a, b, c := txns[i], txns[k], txns[j];
        assert c.forwardSteps[..c.currentStepIdx][..b.currentStepIdx] == c.forwardSteps[..b.currentStepIdx];
      }
    }
  }

  /** However a run ends, the record on the complete or error topic (and in the response)
      reports success exactly when every forward step is OK, and still holds the steps
      finished at any earlier moment. */
  lemma RunResult<B>(txns: seq<Txn<B>>, visits: seq<Visit<B>>, last: Visit<B>, cancelled: bool, i: nat)
    requires IsRun(txns, visits) && InFlight(txns[0]) && FreshSteps(last.outcome.addSteps) && i < |txns|
    ensures InRange(txns[|visits|])
    ensures var f := if cancelled then Cancel(txns[|visits|]) else Advance(txns[|visits|], last);
            && InRange(f.txn)
            && (!f.Forwarded? ==> (Success(f.txn) <==> AllOk(f.txn.forwardSteps)) && (Success(f.txn) <==> f.Completed?))
            && InRange(txns[i]) && txns[i].forwardSteps[..txns[i].currentStepIdx] <= f.txn.forwardSteps
  {
    var n := |visits|;
    RunKeepsPrefix(txns, visits, i, n);
    AdvanceLawful(txns[n], last);
    CancelLawful(txns[n]);
    var f := if cancelled then Cancel(txns[n]) else Advance(txns[n], last);
    assert f.txn.forwardSteps[..txns[n].currentStepIdx] <= f.txn.forwardSteps;
  }
}
