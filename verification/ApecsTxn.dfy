/**
 Transactions and their step lists (pkg/rkcy/apecs_txn.go, pkg/rkcy/commands.go).

 Payloads and instances are values of an arbitrary type B; an absent one stands for Go's
 nil slice. Log events and timestamps are left out of steps and results.
 */
module ApecsTxns {
  import opened Wrappers
  import opened Offsets

  datatype System = NoSystem | Process | Storage | StorageScnd

  datatype Command =
    | Create | Read | Update | UpdateAsync | Delete
    | ValidateCreate | ValidateUpdate
    | RefreshInstance | FlushInstance
    | RequestRelated | RefreshRelated
    | Platform(name: string) // every command that is not reserved

  datatype Code =
    | Undefined | Ok | Internal | MarshalFailed | NotFound | Connection | ConstraintViolation
    | UnknownCommand | InvalidArgument | NotImplemented | NilResult | Cancelled
    | StepAlreadyComplete | MismatchedConcern | MismatchedSystem | KeyNotPresent

  datatype UponError = Report | Revert | Bailout

  datatype Result<B> = Result(
    code: Code,
    key: string,
    payload: Option<B>,
    instance: Option<B>,
    cmpdOffset: Option<CompoundOffset>)

  datatype Step<B> = Step(
    system: System,
    concern: string,
    command: Command,
    key: string,
    payload: Option<B>,
    instance: Option<B>,
    cmpdOffset: Option<CompoundOffset>,
    result: Option<Result<B>>)

  datatype AssocType = Parent | GeneratedStorage | SecondaryStorage
  datatype AssocTxn = AssocTxn(id: string, kind: AssocType)
  datatype TopicTarget = TopicTarget(brokers: string, topic: string, partition: int)

  datatype Txn<B> = Txn(
    id: string,
    assocTxns: seq<AssocTxn>,
    responseTarget: Option<TopicTarget>,
    currentStepIdx: int,
    uponError: UponError,
    forwardSteps: seq<Step<B>>)

  // ---------- predicates on commands and steps ----------

  predicate IsReservedCommand(c: Command) { !c.Platform? }

  predicate IsPlatformCommand(c: Command) { !IsReservedCommand(c) }

  predicate IsTxnProhibitedCommand(c: Command) {
    c.ValidateCreate? || c.ValidateUpdate? || c.RefreshInstance? || c.FlushInstance? || c.RequestRelated?
        || c.RefreshRelated?
  }

  predicate IsStorageSystem(s: System) { s.Storage? || s.StorageScnd? }

  predicate IsKeylessStep<B>(step: Step<B>) {
    (step.system.Storage? && step.command.Create?) || (step.system.Process? && step.command.ValidateCreate?)
  }

  predicate IsInstanceStoreStep<B>(step: Step<B>) {
    step.system.Process? && (step.command.RefreshInstance? || step.command.FlushInstance?)
  }

  predicate ValidSystem(s: System) { s.Process? || IsStorageSystem(s) }

  /** Validate and validateSteps, forward direction. */
  predicate Validate<B>(txn: Txn<B>) {
    && txn.id != ""
    && 0 <= txn.currentStepIdx < |txn.forwardSteps|
    && forall i :: 0 <= i < |txn.forwardSteps| ==> ValidSystem(txn.forwardSteps[i].system)
  }

  predicate DoneOk<B>(step: Step<B>) { step.result.Some? && step.result.value.code.Ok? }

  /** The success flag of ApecsTxnResult. */
  predicate Success<B>(txn: Txn<B>)
    requires 0 <= txn.currentStepIdx < |txn.forwardSteps|
  {
    txn.currentStepIdx == |txn.forwardSteps| - 1 && DoneOk(txn.forwardSteps[txn.currentStepIdx])
  }

  /** The response a finished transaction gets, if it asked for one. */
  function Response<B>(txn: Txn<B>): seq<Txn<B>> { if txn.responseTarget.Some? then [txn] else [] }

  // ---------- step lists ----------

  function InsertAt<B>(steps: seq<Step<B>>, idx: int, more: seq<Step<B>>): seq<Step<B>>
    requires 0 <= idx <= |steps|
  {
    steps[..idx] + more + steps[idx..]
  }

  /** What NewApecsTxn makes of one submitted step: a create goes to storage behind a
      validation, an update is preceded by one. The validation steps carry no key. */
  function Expand<B>(step: Step<B>): seq<Step<B>> {
    if step.system.Process? && step.command.Create? then
      [Step(Process, step.concern, ValidateCreate, "", step.payload, None, None, None), step.(system := Storage)]
    else if step.system.Process? && step.command.Update? then
      [Step(Process, step.concern, ValidateUpdate, "", step.payload, None, None, None), step]
    else [step]
  }

  function ExpandAll<B>(steps: seq<Step<B>>): seq<Step<B>> {
    if steps == [] then [] else Expand(steps[0]) + ExpandAll(steps[1..])
  }

  function NewApecsTxn<B>(id: string, assoc: Option<AssocTxn>, target: Option<TopicTarget>, uponError: UponError,
                          steps: seq<Step<B>>): Option<Txn<B>>
  {
    if target.Some? && (target.value.topic == "" || target.value.partition < 0) then None
    else Some(Txn(id, if assoc.Some? then [assoc.value] else [], target, 0, uponError, ExpandAll(steps)))
  }

  predicate IsValidated<B>(step: Step<B>) {
    step.system == Process && (step.command == Create || step.command == Update)
  }

  /** How many of the steps get a validation. */
  function CountValidated<B>(steps: seq<Step<B>>): nat {
    if steps == [] then 0 else (if IsValidated(steps[0]) then 1 else 0) + CountValidated(steps[1..])
  }

  /** Where a submitted step ends up: behind those before it and all validations up to its own,
      which comes right before it with its payload and without a key. */
  lemma {:induction false} ExpandedAt<B>(steps: seq<Step<B>>, i: nat) returns (at: nat)
    requires i < |steps|
    ensures var e, step := ExpandAll(steps), steps[i];
            && |e| == |steps| + CountValidated(steps) && at == i + CountValidated(steps[..i + 1]) < |e|
            && e[at] == (if step.system == Process && step.command == Create then step.(system := Storage) else step)
            && (IsValidated(step) ==>
                  && at > 0
                  && e[at - 1] == Step(Process, step.concern,
                                       if step.command == Create then ValidateCreate else ValidateUpdate, "",
                                       step.payload, None, None, None))
    decreases |steps|
  {
    var rest, n := steps[1..], |Expand(steps[0])|;
    assert steps[..i + 1][1..] == rest[..i];
    if i == 0 {
      at := n - 1;
      if rest != [] {
        var _ := ExpandedAt(rest, 0);
      }
    } else {
      at := ExpandedAt(rest, i - 1);
      assert rest[i - 1] == steps[i];
      at := at + n;
    }
  }

  lemma ExpandNext<B>(done: seq<Step<B>>, steps: seq<Step<B>>, i: nat)
    requires i < |steps| && done + ExpandAll(steps[i..]) == ExpandAll(steps)
    ensures (done + Expand(steps[i])) + ExpandAll(steps[i + 1..]) == ExpandAll(steps)
  {
    assert steps[i..][0] == steps[i] && steps[i..][1..] == steps[i + 1..];
    assert (done + Expand(steps[i])) + ExpandAll(steps[i + 1..])
             == done + (Expand(steps[i]) + ExpandAll(steps[i + 1..]));
  }

  method NewApecsTxnLoop<B>(id: string, assoc: Option<AssocTxn>, target: Option<TopicTarget>, uponError: UponError,
                            steps: seq<Step<B>>) returns (r: Option<Txn<B>>)
    ensures r == NewApecsTxn(id, assoc, target, uponError, steps)
    ensures r == None <==> target.Some? && (target.value.topic == "" || target.value.partition < 0)
    ensures r.Some? ==> r.value.id == id && r.value.responseTarget == target && r.value.uponError == uponError
                        && r.value.currentStepIdx == 0
                        && r.value.assocTxns == match assoc case Some(a) => [a] case None => []
  {
    if target.Some? && (target.value.topic == "" || target.value.partition < 0) { return None; }
    var assocTxns := [];
    if assoc.Some? { assocTxns := assocTxns + [assoc.value]; }
    assert assocTxns == if assoc.Some? then [assoc.value] else [];
    var forwardSteps: seq<Step<B>> := [];
    for i := 0 to |steps|
      invariant forwardSteps + ExpandAll(steps[i..]) == ExpandAll(steps)
    {
      var step := steps[i];
      ExpandNext(forwardSteps, steps, i);
      ghost var before := forwardSteps;
      if step.system.Process? && step.command.Create? {
        var validateStep := Step(Process, step.concern, ValidateCreate, "", step.payload, None, None, None);
        forwardSteps := forwardSteps + [validateStep];
        forwardSteps := forwardSteps + [step.(system := Storage)];
      } else if step.system.Process? && step.command.Update? {
        var validateStep := Step(Process, step.concern, ValidateUpdate, "", step.payload, None, None, None);
        forwardSteps := forwardSteps + [validateStep];
        forwardSteps := forwardSteps + [step];
      } else {
        forwardSteps := forwardSteps + [step];
      }
      assert forwardSteps == before + Expand(step);
    }
    assert steps[|steps|..] == [] && forwardSteps + [] == forwardSteps;
    r := Some(Txn(id, assocTxns, target, 0, uponError, forwardSteps));
  }

  // ---------- the runtime transaction ----------

  class RtApecsTxn<B> {
    var txn: Txn<B>

    constructor (txn: Txn<B>)
      requires Validate(txn)
      ensures this.txn == txn
    {
      this.txn := txn;
    }

    function GetSteps(): seq<Step<B>>
      reads this
    {
      txn.forwardSteps
    }

    method CanAdvance() returns (b: bool)
      ensures b <==> txn.currentStepIdx < |txn.forwardSteps| - 1
    {
      b := txn.currentStepIdx < |GetSteps()| - 1;
    }

    method AdvanceStepIdx() returns (b: bool)
      modifies this
      ensures b <==> old(txn.currentStepIdx) < |old(txn.forwardSteps)| - 1
      ensures txn == if b then old(txn).(currentStepIdx := old(txn).currentStepIdx + 1) else old(txn)
    {
      b := CanAdvance();
      if b {
        txn := txn.(currentStepIdx := txn.currentStepIdx + 1);
      }
    }

    method PreviousStep() returns (r: Option<Step<B>>)
      requires 0 <= txn.currentStepIdx < |txn.forwardSteps|
      ensures r == if txn.currentStepIdx == 0 then None else Some(txn.forwardSteps[txn.currentStepIdx - 1])
    {
      if txn.currentStepIdx == 0 { return None; }
      r := Some(GetSteps()[txn.currentStepIdx - 1]);
    }

    method CurrentStep() returns (r: Step<B>)
      requires 0 <= txn.currentStepIdx < |txn.forwardSteps|
      ensures r == txn.forwardSteps[txn.currentStepIdx]
    {
      r := GetSteps()[txn.currentStepIdx];
    }

    /** Writes through the pointer to the step at `idx`. */
    method SetStep(idx: int, step: Step<B>)
      requires 0 <= idx < |txn.forwardSteps|
      modifies this
      ensures txn == old(txn).(forwardSteps := old(txn).forwardSteps[idx := step])
    {
      txn := txn.(forwardSteps := txn.forwardSteps[idx := step]);
    }

    /** False is the "Index out of range" error. */
    method InsertSteps(idx: int, steps: seq<Step<B>>) returns (ok: bool)
      requires 0 <= idx
      modifies this
      ensures ok <==> idx <= |old(txn).forwardSteps|
      ensures ok ==> txn == old(txn).(forwardSteps := InsertAt(old(txn).forwardSteps, idx, steps))
      ensures !ok ==> txn == old(txn)
    {
      var currSteps := GetSteps();
      if idx == |currSteps| {
        for i := 0 to |steps|
          invariant currSteps == GetSteps() + steps[..i]
        {
          currSteps := currSteps + [steps[i]];
        }
        txn := txn.(forwardSteps := currSteps);
        return true;
      } else if idx > |currSteps| {
        return false;
      }
      // put in the middle, so make a new slice
      var newSteps: seq<Step<B>> := [];
      for currIdx := 0 to |currSteps|
        invariant newSteps == if currIdx <= idx then currSteps[..currIdx]
                              else currSteps[..idx] + steps + currSteps[idx..currIdx]
      {
        if |newSteps| == idx {
          for i := 0 to |steps|
            invariant newSteps == currSteps[..idx] + steps[..i]
          {
            newSteps := newSteps + [steps[i]];
          }
        }
        newSteps := newSteps + [currSteps[currIdx]];
      }
      txn := txn.(forwardSteps := newSteps);
      ok := true;
    }

    method ReplaceStep(idx: int, step: Step<B>) returns (ok: bool)
      modifies this
      ensures ok <==> 0 <= idx < |old(txn).forwardSteps|
      ensures txn == if ok then old(txn).(forwardSteps := old(txn).forwardSteps[idx := step]) else old(txn)
    {
      if idx < 0 || idx >= |txn.forwardSteps| { return false; }
      SetStep(idx, step);
      ok := true;
    }
  }
}
