/**
 advanceApecsTxn and produceNextStep (pkg/apecs/apecs_runner.go) with the Produce functions
 (pkg/apecs/apecs.go) as the imperative code they are: the runtime transaction is written
 to step by step and messages are appended to topics. `AdvanceApecsTxn` is proved to leave
 behind what the function `Advance` says, plus the spawned storage transactions.
 */
module ApecsPlatforms {
  import opened Wrappers
  import opened Offsets
  import opened ApecsTxns
  import opened ApecsRunners
  import opened ApecsInvariants
  import opened ApecsFanouts

  /** The code given back to the consumer loop. */
  function ReturnCode<B>(f: Fate<B>): Code { if f.Failed? then f.code else Ok }

  /** The two loops together spawn one transaction per step. */
  lemma AllSpawned<B>(txn: Txn<B>, codec: Codec<B>, ids: nat -> string, order: seq<string>, s1: seq<Txn<B>>,
                      s2: seq<Txn<B>>)
    requires AllOk(txn.forwardSteps) && Enumerates(order, Updates(txn.forwardSteps, codec).Keys)
    requires forall i :: 0 <= i < |order| ==> order[i] in Updates(txn.forwardSteps, codec)
    requires var s := Secondary(txn.forwardSteps);
             |s1| == |s| && forall i :: 0 <= i < |s| ==> s1[i] == SpawnedTxn(ids(i), txn.id, s[i])
    requires var s := Pairs(Updates(txn.forwardSteps, codec), order);
             |s2| == |s| && forall i :: 0 <= i < |s| ==> s2[i] == SpawnedTxn(ids(|s1| + i), txn.id, s[i])
    ensures var s := SpawnedSteps(txn.forwardSteps, codec, order);
            |s1 + s2| == |s| && forall i :: 0 <= i < |s| ==> (s1 + s2)[i] == SpawnedTxn(ids(i), txn.id, s[i])
  {
    var s := SpawnedSteps(txn.forwardSteps, codec, order);
    forall i | 0 <= i < |s| ensures (s1 + s2)[i] == SpawnedTxn(ids(i), txn.id, s[i]) {
      if i >= |s1| {
        assert (s1 + s2)[i] == s2[i - |s1|];
        assert s[i] == Pairs(Updates(txn.forwardSteps, codec), order)[i - |s1|];
      }
    }
  }

  /** The message with the result written to its current step and the handler's steps behind. */
  lemma GrownReady<B>(t: Txn<B>, g: Txn<B>, off: CompoundOffset, inst: Option<B>, outcome: Outcome<B>, produceOk: bool,
                      step: Step<B>)
    requires InFlight(t) && FreshSteps(outcome.addSteps) && outcome.result.Some? && outcome.result.value.code.Ok?
    requires step == Settle(Current(t), outcome.result.value, inst)
    requires var settled := SetCurrent(t, step);
             g == settled.(forwardSteps := InsertAt(settled.forwardSteps, t.currentStepIdx + 1, outcome.addSteps))
    ensures InRange(g) && Current(g) == step && DoneOk(step)
    ensures var f := Finish(t, off, inst, outcome, produceOk);
            && f == ProduceNext(g, off, produceOk)
            && (g.currentStepIdx + 1 == |g.forwardSteps| ==> AllOk(g.forwardSteps))
            && (f.Failed? ==> f.code == Ok) && (f.Completed? ==> AllOk(f.txn.forwardSteps))
  {
    FinishLawful(t, t, off, inst, outcome, produceOk);
  }

  /** The three loops over a completed transaction. */
  method SpawnAll<B>(txn: Txn<B>, codec: Codec<B>, ids: nat -> string)
    returns (spawned: seq<Txn<B>>, assoc: seq<AssocTxn>, ghost order: seq<string>)
    requires AllOk(txn.forwardSteps)
    ensures Enumerates(order, Updates(txn.forwardSteps, codec).Keys)
    ensures OneEach(spawned, SpawnedSteps(txn.forwardSteps, codec, order), ids, 0, txn.id) && |spawned| == |assoc|
  {
    var updates := CollectUpdates(txn.forwardSteps, codec);
    UpdatesShape(txn.forwardSteps, codec);
    var s1, a1 := SpawnSecondaries(txn, ids);
    var s2, a2;
    s2, a2, order := SpawnUpdates(txn, updates, ids, |s1|);
    AllSpawned(txn, codec, ids, order, s1, s2);
    spawned, assoc := s1 + s2, a1 + a2;
  }

  class Platform<B> {
    var forwarded: seq<Txn<B>> // the process and storage topics
    var complete: seq<Txn<B>>
    var error: seq<Txn<B>>
    var responses: seq<Txn<B>>

    constructor ()
      ensures forwarded == complete == error == responses == []
    {
      forwarded, complete, error, responses := [], [], [], [];
    }

    method ProduceResponse(txn: Txn<B>)
      modifies this`responses
      ensures responses == old(responses) + Response(txn)
    {
      if txn.responseTarget.None? { return; }
      responses := responses + [txn];
    }

    /** `idx` names the step to log to; without one it is the first step. */
    method ProduceError(rtxn: RtApecsTxn<B>, idx: Option<int>, code: Code)
      requires InRange(rtxn.txn) && (idx.Some? ==> 0 <= idx.value < |rtxn.txn.forwardSteps|)
      modifies this`error, this`responses, rtxn
      ensures LoggedTo(old(rtxn.txn), rtxn.txn, if idx.Some? then idx.value else 0, code)
      ensures rtxn.txn == MarkError(old(rtxn.txn), if idx.Some? then idx.value else 0, code)
      ensures error == old(error) + [rtxn.txn] && responses == old(responses) + Response(rtxn.txn)
    {
      var i := if idx.Some? then idx.value else 0;
      var step := rtxn.txn.forwardSteps[i];
      if step.result.None? {
        rtxn.SetStep(i, step.(result := Some(Result(code, "", None, None, None))));
      }
      error := error + [rtxn.txn];
      ProduceResponse(rtxn.txn);
    }

    method ProduceComplete(rtxn: RtApecsTxn<B>)
      modifies this`complete, this`responses
      ensures complete == old(complete) + [rtxn.txn] && responses == old(responses) + Response(rtxn.txn)
    {
      complete := complete + [rtxn.txn];
      ProduceResponse(rtxn.txn);
    }

    method ProduceCurrentStep(txn: Txn<B>, produceOk: bool) returns (ok: bool)
      modifies this`forwarded
      ensures ok <==> produceOk && Validate(txn)
      ensures forwarded == if ok then old(forwarded) + [txn] else old(forwarded)
    {
      ok := produceOk && Validate(txn);
      if ok { forwarded := forwarded + [txn]; }
    }

    /** The messages a fate leaves behind, apart from what a completion spawns. */
    twostate predicate Left(f: Fate<B>)
      reads this
    {
      match f
      case Forwarded(t) =>
        forwarded == old(forwarded) + [t] && complete == old(complete) && error == old(error)
            && responses == old(responses)
      case Failed(t, _) =>
        forwarded == old(forwarded) && complete == old(complete) && error == old(error) + [t]
            && responses == old(responses) + Response(t)
      case Completed(t) =>
        && error == old(error)
        && |complete| == |old(complete)| + 1 && complete[..|old(complete)|] == old(complete)
        && var c := complete[|old(complete)|];
           && c == t.(assocTxns := c.assocTxns) && t.assocTxns <= c.assocTxns
           && responses == old(responses) + Response(c)
    }

    /** The storage transactions of a completed transaction, each recorded as associated. */
    method SpawnStorage(rtxn: RtApecsTxn<B>, codec: Codec<B>, ids: nat -> string) returns (ghost order: seq<string>)
      requires AllOk(rtxn.txn.forwardSteps)
      modifies this`forwarded, rtxn
      ensures Enumerates(order, Updates(rtxn.txn.forwardSteps, codec).Keys)
      ensures rtxn.txn == old(rtxn.txn).(assocTxns := rtxn.txn.assocTxns)
              && old(rtxn.txn).assocTxns <= rtxn.txn.assocTxns
      ensures Spawned(rtxn.txn, codec, ids, order)
    {
      var spawned, assoc;
      spawned, assoc, order := SpawnAll(rtxn.txn, codec, ids);
      forwarded := forwarded + spawned;
      rtxn.txn := rtxn.txn.(assocTxns := rtxn.txn.assocTxns + assoc);
    }

    twostate predicate Spawned(txn: Txn<B>, codec: Codec<B>, ids: nat -> string, order: seq<string>)
      requires AllOk(txn.forwardSteps) && Enumerates(order, Updates(txn.forwardSteps, codec).Keys)
      reads this
    {
      var s := SpawnedSteps(txn.forwardSteps, codec, order);
      && |forwarded| == |old(forwarded)| + |s| && forwarded[..|old(forwarded)|] == old(forwarded)
      && forall i :: 0 <= i < |s| ==> forwarded[|old(forwarded)| + i] == SpawnedTxn(ids(i), txn.id, s[i])
    }

    method ProduceNextStep(rtxn: RtApecsTxn<B>, step: Step<B>, off: CompoundOffset, produceOk: bool, codec: Codec<B>,
                           ids: nat -> string)
      returns (ghost order: seq<string>)
      requires InRange(rtxn.txn) && Current(rtxn.txn) == step && DoneOk(step)
      requires rtxn.txn.currentStepIdx + 1 == |rtxn.txn.forwardSteps| ==> AllOk(rtxn.txn.forwardSteps)
      modifies this, rtxn
      ensures Left(ProduceNext(old(rtxn.txn), off, produceOk))
      ensures var f := ProduceNext(old(rtxn.txn), off, produceOk);
              f.Completed? ==> Enumerates(order, Updates(f.txn.forwardSteps, codec).Keys)
                               && Spawned(f.txn, codec, ids, order)
    {
      order := [];
      var advanced := rtxn.AdvanceStepIdx();
      if advanced {
        var idx := rtxn.txn.currentStepIdx;
        var nextStep := rtxn.CurrentStep();
        if nextStep.payload.None? && IsPlatformCommand(nextStep.command) {
          nextStep := nextStep.(payload := step.result.value.payload);
        }
        if nextStep.system.Storage? && nextStep.cmpdOffset.None? {
          if step.cmpdOffset.Some? {
            nextStep := nextStep.(cmpdOffset := step.cmpdOffset);
          } else {
            nextStep := nextStep.(cmpdOffset := Some(off));
          }
        }
        rtxn.SetStep(idx, nextStep);
        var ok := ProduceCurrentStep(rtxn.txn, produceOk);
        if !ok {
          ProduceError(rtxn, Some(idx), Internal);
        }
      } else {
        order := SpawnStorage(rtxn, codec, ids);
        ProduceComplete(rtxn);
      }
    }

    /** Turns the message away with an error on its current step. */
    method Reject(rtxn: RtApecsTxn<B>, code: Code)
      requires InRange(rtxn.txn)
      modifies this, rtxn
      ensures Left(FailAt(old(rtxn.txn), old(rtxn.txn).currentStepIdx, code))
    {
      ProduceError(rtxn, Some(rtxn.txn.currentStepIdx), code);
    }

    method CancelApecsTxn(rtxn: RtApecsTxn<B>)
      requires InRange(rtxn.txn)
      modifies this, rtxn
      ensures Left(Cancel(old(rtxn.txn)))
      ensures |error| == |old(error)| + 1
              && LoggedTo(old(rtxn.txn), error[|old(error)|], old(rtxn.txn).currentStepIdx, Cancelled)
    {
      Reject(rtxn, Cancelled);
    }

    /** The part of advanceApecsTxn before the handler: checks, key, offset and cache. */
    method AdmitStep(rtxn: RtApecsTxn<B>, topic: Topic, off: CompoundOffset,
                     insts: map<string, B>) returns (a: Admission<B>)
      requires InRange(rtxn.txn)
      modifies rtxn
      ensures a == Admit(old(rtxn.txn), topic, off, insts)
      ensures rtxn.txn == Stamped(old(rtxn.txn), topic, off)
    {
      var idx := rtxn.txn.currentStepIdx;
      var step := rtxn.CurrentStep();
      if step.result.Some? { return Rejected(StepAlreadyComplete); }
      if step.concern != topic.concern { return Rejected(MismatchedConcern); }
      if step.system != topic.system { return Rejected(MismatchedSystem); }
      if step.key == "" && !IsKeylessStep(step) {
        var prevStep := rtxn.PreviousStep();
        if prevStep.Some? && prevStep.value.result.Some? && prevStep.value.result.value.key != "" {
          step := step.(key := prevStep.value.result.value.key);
        } else {
          return Rejected(KeyNotPresent);
        }
      }
      if step.system.Process? {
        step := step.(cmpdOffset := Some(off));
      }
      rtxn.SetStep(idx, step);
      var inst: Option<B> := None;
      if step.system.Process? {
        if !IsKeylessStep(step) && !IsInstanceStoreStep(step) && step.key in insts {
          inst := Some(insts[step.key]);
        }
        if inst.None? && !IsKeylessStep(step) && !IsInstanceStoreStep(step) {
          return Missed;
        } else if inst.Some? && step.command.Create? {
          return Rejected(Internal);
        }
      }
      if step.cmpdOffset.None? { return Rejected(Internal); }
      a := Admitted(inst);
    }

    method TakeDetour(rtxn: RtApecsTxn<B>, off: CompoundOffset)
      requires InRange(rtxn.txn)
      modifies rtxn
      ensures rtxn.txn == Detour(old(rtxn.txn), off)
    {
      var step := rtxn.CurrentStep();
      var read := Step(Storage, step.concern, Read, step.key, None, None, Some(off), None);
      var ok;
      if step.command.Read? {
        ok := rtxn.ReplaceStep(rtxn.txn.currentStepIdx, read);
      } else {
        ok := rtxn.InsertSteps(rtxn.txn.currentStepIdx, [read]);
      }
    }

    method AdvanceApecsTxn(rtxn: RtApecsTxn<B>, v: Visit<B>, codec: Codec<B>, ids: nat -> string)
      returns (code: Code, ghost order: seq<string>)
      requires InFlight(rtxn.txn) && FreshSteps(v.outcome.addSteps)
      modifies this, rtxn
      ensures var f := Advance(old(rtxn.txn), v);
              && Left(f) && code == ReturnCode(f)
              && (f.Completed? ==>
                    && AllOk(f.txn.forwardSteps)
                    && Enumerates(order, Updates(f.txn.forwardSteps, codec).Keys)
                    && Spawned(f.txn, codec, ids, order))
    {
      order := [];
      AdvanceLawful(rtxn.txn, v);
      ghost var before := rtxn.txn;
      var a := AdmitStep(rtxn, v.topic, v.off, v.insts);
      StampedInFlight(before, v.topic, v.off);
      match a {
        case Rejected(c) =>
          Reject(rtxn, c);
          return c, order;
        case Missed =>
          TakeDetour(rtxn, v.off);
          var ok := ProduceCurrentStep(rtxn.txn, v.produceOk);
          if !ok {
            ProduceError(rtxn, None, Internal);
            return Internal, order;
          }
          return Ok, order;
        case Admitted(inst) =>
          code, order := CompleteStep(rtxn, inst, v.off, v.outcome, v.produceOk, codec, ids);
      }
    }

    /** Writes an OK result to the current step and puts the handler's steps behind it. */
    method RecordSuccess(rtxn: RtApecsTxn<B>, rslt: Result<B>, inst: Option<B>,
                         addSteps: seq<Step<B>>) returns (step: Step<B>)
      requires InRange(rtxn.txn)
      modifies rtxn
      ensures step == Settle(Current(old(rtxn.txn)), rslt, inst)
      ensures var settled := SetCurrent(old(rtxn.txn), step);
              rtxn.txn == settled.(forwardSteps := InsertAt(settled.forwardSteps, settled.currentStepIdx + 1, addSteps))
    {
      var idx := rtxn.txn.currentStepIdx;
      var result := rslt;
      step := rtxn.CurrentStep();
      if result.payload.None? {
        result := result.(payload := step.payload);
      }
      step := step.(result := Some(result));
      if step.system.Process? && result.instance.Some? {
        step := step.(instance := inst);
      }
      rtxn.SetStep(idx, step);
      ghost var steps := rtxn.txn.forwardSteps;
      if |addSteps| > 0 {
        var ok := rtxn.InsertSteps(idx + 1, addSteps);
      } else {
        assert InsertAt(steps, idx + 1, addSteps) == steps;
      }
    }

    /** A missing result, or one that is not OK. */
    method RefuseStep(rtxn: RtApecsTxn<B>, ghost inst: Option<B>, ghost off: CompoundOffset, outcome: Outcome<B>,
                      ghost produceOk: bool) returns (code: Code)
      requires InFlight(rtxn.txn) && (outcome.result.None? || !outcome.result.value.code.Ok?)
      modifies this, rtxn
      ensures var f := Finish(old(rtxn.txn), off, inst, outcome, produceOk); Left(f) && code == ReturnCode(f)
    {
      var idx := rtxn.txn.currentStepIdx;
      var step := rtxn.CurrentStep();
      assert rtxn.txn.forwardSteps[idx..][0] == step;
      if outcome.result.None? {
        code := if rtxn.txn.uponError.Bailout? then NilResult else Internal;
        Reject(rtxn, code);
        return code;
      }
      code := outcome.result.value.code;
      rtxn.SetStep(idx, step.(result := outcome.result));
      Reject(rtxn, code);
    }

    /** The part after the handler. */
    method CompleteStep(rtxn: RtApecsTxn<B>, inst: Option<B>, off: CompoundOffset, outcome: Outcome<B>, produceOk: bool,
                        codec: Codec<B>, ids: nat -> string) returns (code: Code, ghost order: seq<string>)
      requires InFlight(rtxn.txn) && FreshSteps(outcome.addSteps)
      modifies this, rtxn
      ensures var f := Finish(old(rtxn.txn), off, inst, outcome, produceOk);
              && Left(f) && code == ReturnCode(f)
              && (f.Completed? ==>
                    && AllOk(f.txn.forwardSteps)
                    && Enumerates(order, Updates(f.txn.forwardSteps, codec).Keys)
                    && Spawned(f.txn, codec, ids, order))
    {
      order := [];
      ghost var before := rtxn.txn;
      if outcome.result.None? || !outcome.result.value.code.Ok? {
        code := RefuseStep(rtxn, inst, off, outcome, produceOk);
        return code, order;
      }
      var result := outcome.result.value;
      var step := RecordSuccess(rtxn, result, inst, outcome.addSteps);
      GrownReady(before, rtxn.txn, off, inst, outcome, produceOk, step);
      order := ProduceNextStep(rtxn, step, off, produceOk, codec, ids);
      code := Ok;
    }
  }
}
