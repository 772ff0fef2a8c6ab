/**
 What an error record says: which step is logged to, and with which code, for every way a
 visit or a cancellation can fail. The same code goes back to the consumer loop, which bails
 out on some (isBailoutableCode in pkg/apecs/apecs_runner.go).
 */
module ApecsErrors {
  import opened Wrappers
  import opened Offsets
  import opened ApecsTxns
  import opened ApecsRunners
  import opened ApecsInvariants

  /** The record says `code` on step `idx`, and so does the consumer. */
  predicate FailedAt<B>(f: Fate<B>, idx: int, code: Code) {
    && f.Failed? && f.code == code && 0 <= idx < |f.txn.forwardSteps|
    && f.txn.forwardSteps[idx].result.Some? && f.txn.forwardSteps[idx].result.value.code == code
  }

  lemma CancelledSays<B>(txn: Txn<B>)
    requires InRange(txn)
    ensures var f := Cancel(txn);
            && f.Failed? && f.code == Cancelled && LoggedTo(txn, f.txn, txn.currentStepIdx, Cancelled)
            && (Current(txn).result.None? ==> FailedAt(f, txn.currentStepIdx, Cancelled))
  {
  }

  // ---------- turned away ----------

  predicate NeedsKey<B>(step: Step<B>) {
    !(step.system == Storage && step.command == Create) && !(step.system == Process && step.command == ValidateCreate)
  }

  /** The step has no key, and the step before it names none. */
  predicate Keyless<B>(txn: Txn<B>)
    requires InRange(txn)
  {
    var n := txn.currentStepIdx;
    && txn.forwardSteps[n].key == "" && NeedsKey(txn.forwardSteps[n])
    && (n > 0 && txn.forwardSteps[n - 1].result.Some? ==> txn.forwardSteps[n - 1].result.value.key == "")
  }

  /** The key the step runs under. */
  predicate RunsUnder<B>(txn: Txn<B>, key: string)
    requires InRange(txn)
  {
    var n := txn.currentStepIdx;
    if txn.forwardSteps[n].key != "" || !NeedsKey(txn.forwardSteps[n]) then key == txn.forwardSteps[n].key
    else n > 0 && key != "" && txn.forwardSteps[n - 1].result.Some? && key == txn.forwardSteps[n - 1].result.value.key
  }

  /** The step runs on a cached instance. */
  predicate RunsOnInstance<B>(step: Step<B>) {
    step.system == Process && step.command != ValidateCreate && step.command != RefreshInstance
        && step.command != FlushInstance
  }

  /** A message that reached the wrong consumer, has run already, or names no key. */
  lemma TurnedAway<B>(txn: Txn<B>, v: Visit<B>)
    requires InRange(txn)
    ensures var step, f, n := Current(txn), Advance(txn, v), txn.currentStepIdx;
            if step.result.Some? then f == Failed(txn, StepAlreadyComplete)
            else if step.concern != v.topic.concern then
              FailedAt(f, n, MismatchedConcern) && LoggedTo(txn, f.txn, n, MismatchedConcern)
            else if step.system != v.topic.system then
              FailedAt(f, n, MismatchedSystem) && LoggedTo(txn, f.txn, n, MismatchedSystem)
            else Keyless(txn) ==> FailedAt(f, n, KeyNotPresent) && LoggedTo(txn, f.txn, n, KeyNotPresent)
  {
  }

  predicate Arrives<B>(txn: Txn<B>, v: Visit<B>)
    requires InRange(txn)
  {
    Current(txn).result.None? && Current(txn).concern == v.topic.concern && Current(txn).system == v.topic.system
        && !Keyless(txn)
  }

  /** One that arrives where it should has a key. A create of a cached instance and a storage
      step without an offset are internal errors; a step whose instance is missing takes the
      detour; every other one reaches its handler, with the cached instance if it runs on one. */
  lemma LetInOrNot<B>(txn: Txn<B>, v: Visit<B>, key: string)
    requires InRange(txn) && Arrives(txn, v)
    ensures exists k :: RunsUnder(txn, k)
    ensures var step, f, n, a := Current(txn), Advance(txn, v), txn.currentStepIdx,
                                 Admit(txn, v.topic, v.off, v.insts);
            RunsUnder(txn, key) ==>
              if RunsOnInstance(step) && key !in v.insts then a == Missed
              else if RunsOnInstance(step) && step.command == Create then FailedAt(f, n, Internal)
              else if step.system != Process && step.cmpdOffset == None then FailedAt(f, n, Internal)
              else a == Admitted(if RunsOnInstance(step) then Some(v.insts[key]) else None)
  {
    var k := if Current(txn).key != "" || !NeedsKey(Current(txn)) then Current(txn).key
             else txn.forwardSteps[txn.currentStepIdx - 1].result.value.key;
    assert RunsUnder(txn, k);
  }

  // ---------- after a miss, and after the handler ----------

  /** A detour that cannot be produced is logged to the first step, if it has not run. */
  lemma DetourFails<B>(txn: Txn<B>, v: Visit<B>)
    requires InFlight(txn) && Admit(txn, v.topic, v.off, v.insts).Missed?
    ensures var f := Advance(txn, v);
            && (f.Failed? <==> !v.produceOk) && !f.Completed?
            && (f.Failed? ==>
                  && f.code == Internal && |f.txn.forwardSteps| > 0
                  && if txn.currentStepIdx == 0 then FailedAt(f, 0, Internal)
                     else f.txn.forwardSteps[0] == txn.forwardSteps[0])
  {
    var t, n := Stamped(txn, v.topic, v.off), txn.currentStepIdx;
    StampedInFlight(txn, v.topic, v.off);
    DetourLawful(txn, t, v.off, v.produceOk);
    if n > 0 {
      assert t.forwardSteps[..n][0] == t.forwardSteps[0] && txn.forwardSteps[..n][0] == txn.forwardSteps[0];
    } else {
      assert t.forwardSteps[n..][0] == t.forwardSteps[0];
    }
  }

  /** A handler without a result is a nil result under BAILOUT and an internal error otherwise;
      one that refuses gives its own result and code. After one that succeeds the visit fails
      only when the next step cannot be produced: that step is logged to, and the consumer is
      told OK. */
  lemma HandlerFails<B>(txn: Txn<B>, v: Visit<B>)
    requires InFlight(txn) && FreshSteps(v.outcome.addSteps) && Admit(txn, v.topic, v.off, v.insts).Admitted?
    ensures var f, n := Advance(txn, v), txn.currentStepIdx;
            match v.outcome.result
            case None => FailedAt(f, n, if txn.uponError == Bailout then NilResult else Internal)
            case Some(r) =>
              if r.code != Ok then FailedAt(f, n, r.code) && f.txn.forwardSteps[n].result == Some(r)
              else
                f.Failed? ==> f.code == Ok && f.txn.currentStepIdx == n + 1 && InRange(f.txn)
                              && DoneOk(f.txn.forwardSteps[n])
                              && Current(f.txn).result == Some(Result(Internal, "", None, None, None))
  {
    var t, n := Stamped(txn, v.topic, v.off), txn.currentStepIdx;
    StampedInFlight(txn, v.topic, v.off);
    assert t.forwardSteps[n..][0] == t.forwardSteps[n];
    if v.outcome.result.Some? && v.outcome.result.value.code == Ok && Advance(txn, v).Failed? {
      NextUnlogged(t, v.outcome.addSteps, Settle(Current(t), v.outcome.result.value,
                                                 Admit(txn, v.topic, v.off, v.insts).inst));
    }
  }

  /** The step that runs next has no result yet. */
  lemma NextUnlogged<B>(t: Txn<B>, more: seq<Step<B>>, settled: Step<B>)
    requires InFlight(t) && FreshSteps(more)
    ensures var n := t.currentStepIdx; var grown := InsertAt(t.forwardSteps[n := settled], n + 1, more);
            grown[n] == settled && (n + 1 < |grown| ==> grown[n + 1].result.None?)
  {
    var n := t.currentStepIdx;
    var grown := InsertAt(t.forwardSteps[n := settled], n + 1, more);
    if more == [] && n + 1 < |t.forwardSteps| {
      assert grown[n + 1] == t.forwardSteps[n + 1] == t.forwardSteps[n..][1];
    } else if more != [] {
      assert grown[n + 1] == more[0];
    }
  }

  /** Under BAILOUT a consumer reads a message again unless it was turned away: what fails behind
      that point is retried, but for a handler that answers with one of those codes itself. */
  lemma RetriedOrNot<B>(txn: Txn<B>, v: Visit<B>)
    requires InFlight(txn) && FreshSteps(v.outcome.addSteps)
    ensures var f := Advance(txn, v);
            && (!Arrives(txn, v) ==> f.Failed? && !IsBailoutableCode(f.code))
            && (Arrives(txn, v) && f.Failed? && !Admit(txn, v.topic, v.off, v.insts).Admitted? ==>
                  IsBailoutableCode(f.code))
            && (Admit(txn, v.topic, v.off, v.insts).Admitted? && v.outcome.result == None ==> IsBailoutableCode(f.code))
    ensures IsBailoutableCode(Cancelled) && !IsBailoutableCode(Ok)
  {
    TurnedAway(txn, v);
  }

  // ---------- after a success ----------

  /** The step that has run, with the handler's answer: a missing payload is the step's own, and
      a PROCESS step that changed its instance keeps the one it was given. */
  ghost predicate RanAs<B>(was: Step<B>, key: string, v: Visit<B>, inst: Option<B>, now: Step<B>)
    requires v.outcome.result.Some?
  {
    var r := v.outcome.result.value;
    && now.system == was.system && now.concern == was.concern && now.command == was.command && now.key == key
    && now.payload == was.payload && now.cmpdOffset == (if was.system == Process then Some(v.off) else was.cmpdOffset)
    && now.instance == (if was.system == Process && r.instance.Some? then inst else was.instance)
    && now.result == Some(Result(r.code, r.key, if r.payload == None then was.payload else r.payload, r.instance,
                                 r.cmpdOffset))
  }

  /** The step that runs next: a command without payload takes the last step's result, a STORAGE
      step without offset the last step's. */
  ghost predicate TakesOver<B>(was: Step<B>, done: Step<B>, now: Step<B>)
    requires done.result.Some? && done.cmpdOffset.Some?
  {
    && now == was.(payload := now.payload, cmpdOffset := now.cmpdOffset)
    && now.payload == (if was.payload == None && was.command.Platform? then done.result.value.payload else was.payload)
    && now.cmpdOffset == (if was.system == Storage && was.cmpdOffset == None then done.cmpdOffset else was.cmpdOffset)
  }

  /** A handler that succeeds: its step is recorded, its steps come next, and all others stay as
      they are, but for what the first of them takes over. */
  lemma HandsOn<B>(txn: Txn<B>, v: Visit<B>, inst: Option<B>, key: string)
    requires InFlight(txn) && FreshSteps(v.outcome.addSteps) && RunsUnder(txn, key)
    requires Admit(txn, v.topic, v.off, v.insts) == Admitted(inst) && v.produceOk
    requires v.outcome.result.Some? && v.outcome.result.value.code == Ok
    ensures var f, n := Advance(txn, v), txn.currentStepIdx;
            var rest := v.outcome.addSteps + txn.forwardSteps[n + 1..];
            && !f.Failed? && (f.Completed? <==> rest == []) && |f.txn.forwardSteps| == n + 1 + |rest|
            && f.txn.currentStepIdx == (if rest == [] then n else n + 1)
            && f.txn.forwardSteps[..n] == txn.forwardSteps[..n]
            && RanAs(Current(txn), key, v, inst, f.txn.forwardSteps[n])
            && (rest != [] ==> TakesOver(rest[0], f.txn.forwardSteps[n], f.txn.forwardSteps[n + 1]))
            && forall i :: 1 <= i < |rest| ==> f.txn.forwardSteps[n + 1 + i] == rest[i]
  {
    var t, n := Stamped(txn, v.topic, v.off), txn.currentStepIdx;
    StampedInFlight(txn, v.topic, v.off);
    FinishShape(t, v.off, inst, v.outcome);
    var settled, rest := Settle(Current(t), v.outcome.result.value, inst), v.outcome.addSteps + t.forwardSteps[n + 1..];
    SettledRuns(txn, v, inst, key, settled);
    Laid(t.forwardSteps[..n], settled, rest, InheritFirst(rest, settled, v.off));
    if rest != [] {
      InheritsAs(rest[0], settled, v.off);
    }
  }

  lemma SettledRuns<B>(txn: Txn<B>, v: Visit<B>, inst: Option<B>, key: string, settled: Step<B>)
    requires InFlight(txn) && RunsUnder(txn, key) && Admit(txn, v.topic, v.off, v.insts) == Admitted(inst)
    requires v.outcome.result.Some?
    requires settled == Settle(Current(Stamped(txn, v.topic, v.off)), v.outcome.result.value, inst)
    ensures RanAs(Current(txn), key, v, inst, settled) && settled.cmpdOffset.Some?
  {
  }

  lemma InheritsAs<B>(was: Step<B>, done: Step<B>, off: CompoundOffset)
    requires done.result.Some? && done.cmpdOffset.Some?
    ensures TakesOver(was, done, Inherit(was, done, off))
  {
  }

  lemma Laid<T>(before: seq<T>, x: T, rest: seq<T>, now: seq<T>)
    requires |now| == |rest| && (rest != [] ==> now[1..] == rest[1..])
    ensures var n, s := |before|, before + [x] + now;
            |s| == n + 1 + |rest| && s[..n] == before && s[n] == x && (rest != [] ==> s[n + 1] == now[0])
                && forall i :: 1 <= i < |rest| ==> s[n + 1 + i] == rest[i]
  {
    forall i | 1 <= i < |rest| ensures now[i] == rest[i] {
      assert now[1..][i - 1] == rest[1..][i - 1];
    }
  }
}
