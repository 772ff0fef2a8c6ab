/**
 One visit of a transaction message to a consumer (advanceApecsTxn, produceNextStep and
 cancelApecsTxn in pkg/apecs/apecs_runner.go) as a function of the message, the consumer's
 instance cache and what the concern handler answers.
 */
module ApecsRunners {
  import opened Wrappers
  import opened Offsets
  import opened ApecsTxns

  datatype Topic = Topic(concern: string, system: System)

  /** What a concern handler returns: no result stands for a nil result or a panic. */
  datatype Outcome<B> = Outcome(result: Option<Result<B>>, addSteps: seq<Step<B>>)

  /** One delivery of the message: where, at which offset, what the cache holds, what the
      handler would answer, and whether producing the next message succeeds. */
  datatype Visit<B> = Visit(
    topic: Topic,
    off: CompoundOffset,
    insts: map<string, B>,
    outcome: Outcome<B>,
    produceOk: bool)

  /** What becomes of the message: back into the stream, to the complete topic, or to the
      error topic together with the code given back to the consumer loop. */
  datatype Fate<B> = Forwarded(txn: Txn<B>) | Completed(txn: Txn<B>) | Failed(txn: Txn<B>, code: Code)

  predicate IsBailoutableCode(code: Code) {
    !code.Ok? && !code.StepAlreadyComplete? && !code.MismatchedConcern? && !code.MismatchedSystem?
        && !code.KeyNotPresent?
  }

  predicate InRange<B>(txn: Txn<B>) { 0 <= txn.currentStepIdx < |txn.forwardSteps| }

  function Current<B>(txn: Txn<B>): Step<B>
    requires InRange(txn)
  {
    txn.forwardSteps[txn.currentStepIdx]
  }

  function SetCurrent<B>(txn: Txn<B>, step: Step<B>): Txn<B>
    requires InRange(txn)
  {
    txn.(forwardSteps := txn.forwardSteps[txn.currentStepIdx := step])
  }

  /** `b` is `a` but for a result with `code`, and nothing else, on step `idx` if it had none. */
  ghost predicate LoggedTo<B>(a: Txn<B>, b: Txn<B>, idx: int, code: Code) {
    && |b.forwardSteps| == |a.forwardSteps| && b == a.(forwardSteps := b.forwardSteps) && 0 <= idx < |a.forwardSteps|
    && (forall i :: 0 <= i < |a.forwardSteps| && i != idx ==> b.forwardSteps[i] == a.forwardSteps[i])
    && b.forwardSteps[idx] == if a.forwardSteps[idx].result.Some? then a.forwardSteps[idx]
                              else a.forwardSteps[idx].(result := Some(Result(code, "", None, None, None)))
  }

  /** ProduceError gives the step a result to log to when it has none. */
  function MarkError<B>(txn: Txn<B>, idx: int, code: Code): Txn<B>
    requires 0 <= idx < |txn.forwardSteps|
  {
    var step := txn.forwardSteps[idx];
    if step.result.Some? then txn
    else txn.(forwardSteps := txn.forwardSteps[idx := step.(result := Some(Result(code, "", None, None, None)))])
  }

  function FailAt<B>(txn: Txn<B>, idx: int, code: Code): Fate<B>
    requires 0 <= idx < |txn.forwardSteps|
  {
    Failed(MarkError(txn, idx, code), code)
  }

  // ---------- before the handler ----------

  /** The key the step runs with: its own, or the one the previous step's result names. */
  function ResolveKey<B>(txn: Txn<B>): Option<string>
    requires InRange(txn)
  {
    var step := Current(txn);
    if step.key != "" || IsKeylessStep(step) then Some(step.key)
    else if txn.currentStepIdx == 0 then None
    else
      var prev := txn.forwardSteps[txn.currentStepIdx - 1];
      if prev.result.Some? && prev.result.value.key != "" then Some(prev.result.value.key) else None
  }

  function Stamp<B>(step: Step<B>, key: string, off: CompoundOffset): Step<B> {
    step.(key := key, cmpdOffset := if step.system.Process? then Some(off) else step.cmpdOffset)
  }

  predicate NeedsInstance<B>(step: Step<B>) {
    step.system.Process? && !IsKeylessStep(step) && !IsInstanceStoreStep(step)
  }

  function StorageRead<B>(step: Step<B>, off: CompoundOffset): Step<B> {
    Step(Storage, step.concern, Read, step.key, None, None, Some(off), None)
  }

  /** A cache miss: a PROCESS read becomes a storage read, any other step waits behind one. */
  function Detour<B>(txn: Txn<B>, off: CompoundOffset): Txn<B>
    requires InRange(txn)
  {
    var step := Current(txn);
    if step.command.Read? then SetCurrent(txn, StorageRead(step, off))
    else txn.(forwardSteps := InsertAt(txn.forwardSteps, txn.currentStepIdx, [StorageRead(step, off)]))
  }

  /** How far the message gets before the handler: turned away, sent on a detour, or let in. */
  datatype Admission<B> = Rejected(code: Code) | Missed | Admitted(inst: Option<B>)

  function Admit<B>(txn: Txn<B>, topic: Topic, off: CompoundOffset, insts: map<string, B>): Admission<B>
    requires InRange(txn)
  {
    var step := Current(txn);
    if step.result.Some? then Rejected(StepAlreadyComplete)
    else if step.concern != topic.concern then Rejected(MismatchedConcern)
    else if step.system != topic.system then Rejected(MismatchedSystem)
    else if ResolveKey(txn).None? then Rejected(KeyNotPresent)
    else
      var key := ResolveKey(txn).value;
      if NeedsInstance(step) && key !in insts then Missed
      else if NeedsInstance(step) && step.command.Create? then Rejected(Internal)
      else if Stamp(step, key, off).cmpdOffset.None? then Rejected(Internal) // "Nil offset"
      else Admitted(if NeedsInstance(step) then Some(insts[key]) else None)
  }

  /** The message with what advanceApecsTxn has written to its current step on the way. */
  function Stamped<B>(txn: Txn<B>, topic: Topic, off: CompoundOffset): Txn<B>
    requires InRange(txn)
  {
    var step := Current(txn);
    if step.result.Some? || step.concern != topic.concern || step.system != topic.system
        || ResolveKey(txn).None? then txn
    else SetCurrent(txn, Stamp(step, ResolveKey(txn).value, off))
  }

  // ---------- after the handler ----------

  /** The current step with a successful result: an absent payload defaults to the step's
      own, and a changed PROCESS instance leaves the original behind. */
  function Settle<B>(step: Step<B>, result: Result<B>, inst: Option<B>): Step<B> {
    var r := if result.payload.None? then result.(payload := step.payload) else result;
    step.(result := Some(r), instance := if step.system.Process? && r.instance.Some? then inst else step.instance)
  }

  /** The step that runs next takes over a payload and an offset it does not have. */
  function Inherit<B>(next: Step<B>, done: Step<B>, off: CompoundOffset): Step<B>
    requires done.result.Some?
  {
    var p := if next.payload.None? && IsPlatformCommand(next.command) then done.result.value.payload else next.payload;
    var o := if next.system.Storage? && next.cmpdOffset.None?
             then (if done.cmpdOffset.Some? then done.cmpdOffset else Some(off)) else next.cmpdOffset;
    next.(payload := p, cmpdOffset := o)
  }

  function ProduceNext<B>(txn: Txn<B>, off: CompoundOffset, produceOk: bool): Fate<B>
    requires InRange(txn) && Current(txn).result.Some?
  {
    var idx := txn.currentStepIdx;
    if idx + 1 < |txn.forwardSteps| then
      var next := txn.(currentStepIdx := idx + 1,
                       forwardSteps := txn.forwardSteps[idx + 1 := Inherit(txn.forwardSteps[idx + 1], Current(txn),
                                                                           off)]);
      if produceOk && Validate(next) then Forwarded(next)
      else Failed(MarkError(next, idx + 1, Internal), Ok) // the consumer loop still sees the step's own code
    else Completed(txn)
  }

  function Finish<B>(txn: Txn<B>, off: CompoundOffset, inst: Option<B>, outcome: Outcome<B>, produceOk: bool): Fate<B>
    requires InRange(txn)
  {
    var step := Current(txn);
    if outcome.result.None? then
      FailAt(txn, txn.currentStepIdx, if txn.uponError.Bailout? then NilResult else Internal)
    else if !outcome.result.value.code.Ok? then
      Failed(SetCurrent(txn, step.(result := outcome.result)), outcome.result.value.code)
    else
      var settled := SetCurrent(txn, Settle(step, outcome.result.value, inst));
      var grown := settled.(forwardSteps := InsertAt(settled.forwardSteps, txn.currentStepIdx + 1, outcome.addSteps));
      ProduceNext(grown, off, produceOk)
  }

  // ---------- the whole visit ----------

  function Advance<B>(txn: Txn<B>, v: Visit<B>): Fate<B>
    requires InRange(txn)
  {
    var t := Stamped(txn, v.topic, v.off);
    match Admit(txn, v.topic, v.off, v.insts)
    case Rejected(code) => FailAt(t, t.currentStepIdx, code)
    case Missed =>
      var d := Detour(t, v.off);
      if v.produceOk && Validate(d) then Forwarded(d) else FailAt(d, 0, Internal) // logged to the first step
    case Admitted(inst) => Finish(t, v.off, inst, v.outcome, v.produceOk)
  }

  function Cancel<B>(txn: Txn<B>): Fate<B>
    requires InRange(txn)
  {
    FailAt(txn, txn.currentStepIdx, Cancelled)
  }

  // ---------- the completed prefix ----------

  predicate AllOk<B>(steps: seq<Step<B>>) { forall i :: 0 <= i < |steps| ==> DoneOk(steps[i]) }

  predicate NoResults<B>(steps: seq<Step<B>>) { forall i :: 0 <= i < |steps| ==> steps[i].result.None? }

  /** A message in the stream: everything before the current step is done and OK, nothing
      from it on has a result. */
  predicate InFlight<B>(txn: Txn<B>) {
    && Validate(txn)
    && AllOk(txn.forwardSteps[..txn.currentStepIdx])
    && NoResults(txn.forwardSteps[txn.currentStepIdx..])
  }

  /** What handlers add: steps that have not run, for systems that exist. */
  predicate FreshSteps<B>(steps: seq<Step<B>>) {
    forall i :: 0 <= i < |steps| ==> steps[i].result.None? && ValidSystem(steps[i].system)
  }

  predicate SameTransaction<B>(a: Txn<B>, b: Txn<B>) {
    a.id == b.id && a.assocTxns == b.assocTxns && a.responseTarget == b.responseTarget && a.uponError == b.uponError
  }

  /** What a visit may do to a message in flight. */
  ghost predicate LawfulFate<B>(txn: Txn<B>, f: Fate<B>)
    requires InFlight(txn)
  {
    var n := txn.currentStepIdx;
    && SameTransaction(txn, f.txn)
    && InRange(f.txn)
    && n <= f.txn.currentStepIdx <= n + 1
    && |f.txn.forwardSteps| > n && f.txn.forwardSteps[..n] == txn.forwardSteps[..n] // done is done
    && match f
       case Forwarded(t) => InFlight(t)
       case Completed(t) => AllOk(t.forwardSteps) && Success(t)
       case Failed(t, code) => !AllOk(t.forwardSteps) && !Success(t)
  }
}
