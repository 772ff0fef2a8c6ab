/**
 The engine and the handlers together: one visit of a message of the example game to the
 consumer of its current step, acting on the caches and the database.
 */
module RpgWorlds {
  import opened Wrappers
  import opened Offsets
  import opened ApecsTxns
  import opened ApecsRunners
  import opened ApecsInvariants
  import opened ApecsProvenance
  import ApecsFanouts
  import opened Rpg

  /** The caches of the process consumers, one per concern, and the primary database. */
  datatype World = World(chars: MStore, players: MStore, db: MDb)

  function StoreOf(w: World, concern: string): MStore {
    if concern == CHARACTER then w.chars else if concern == PLAYER then w.players else map[]
  }

  function WithStore(w: World, concern: string, s: MStore): World {
    if concern == CHARACTER then w.(chars := s) else if concern == PLAYER then w.(players := s) else w
  }

  function Instances(s: MStore): map<string, Bytes> { map k | k in s :: Inst(s[k].inst) }

  /** handleCommand: what the step's concern answers and what it does to the world. The step
      is the stamped one, `inst` what the cache gave for its key. */
  function HandleCommand(w: World, step: MStep, inst: Option<Bytes>, off: CompoundOffset,
                         freshKey: string): Answer<World> {
    if step.concern != CHARACTER && step.concern != PLAYER then Refuse(Internal, w)
    else if step.system.Process? then
      var i := if inst.Some? && inst.value.Inst? then Some(inst.value.inst) else None;
      var a := HandleLogic(step.concern, step.command, LogicArgs(step.key, i, step.payload, off),
                           StoreOf(w, step.concern));
      Answer(a.outcome, WithStore(w, step.concern, a.state))
    else if IsStorageSystem(step.system) && step.cmpdOffset.Some? then
      var a := HandleCrud(step.concern, step.system, step.command,
                          CrudArgs(step.key, step.payload, step.cmpdOffset.value, freshKey), w.db);
      Answer(a.outcome, w.(db := a.state))
    else Refuse(Internal, w)
  }

  datatype Served = Served(fate: Fate<Bytes>, world: World)

  /** The current step, as the handler sees it. */
  function Arrived(txn: MTxn, off: CompoundOffset): MStep
    requires InRange(txn)
  {
    var step := Current(txn);
    Current(Stamped(txn, Topic(step.concern, step.system), off))
  }

  /** What the handler answers in this visit; nothing happens when it is not asked. */
  function Answered(w: World, txn: MTxn, off: CompoundOffset, freshKey: string): Answer<World>
    requires InRange(txn)
  {
    var step := Current(txn);
    match Admit(txn, Topic(step.concern, step.system), off, Instances(StoreOf(w, step.concern)))
    case Admitted(inst) => HandleCommand(w, Arrived(txn, off), inst, off, freshKey)
    case _ => Panic(w)
  }

  function VisitOf(w: World, txn: MTxn, off: CompoundOffset, freshKey: string): Visit<Bytes>
    requires InRange(txn)
  {
    var step := Current(txn);
    Visit(Topic(step.concern, step.system), off, Instances(StoreOf(w, step.concern)),
          Answered(w, txn, off, freshKey).outcome, true)
  }

  /** A message delivered to the consumer of its current step, at offset `off`. */
  function Serve(w: World, txn: MTxn, off: CompoundOffset, freshKey: string): Served
    requires InRange(txn)
  {
    Served(Advance(txn, VisitOf(w, txn, off, freshKey)), Answered(w, txn, off, freshKey).state)
  }

  // ---------- the handlers keep the engine's contract ----------

  lemma {:induction false} PlayerRefreshesShape(list: seq<Character>, payload: Bytes)
    ensures |PlayerRefreshes(list, payload)| == |list|
    ensures forall i :: 0 <= i < |list| ==>
              PlayerRefreshes(list, payload)[i] == ProcessStep(CHARACTER, RefreshRelated, list[i].id,
                                                               Some(RelRsp(PLAYER, "Player", payload)))
  {
    if list != [] {
      PlayerRefreshesShape(list[1..], payload);
    }
  }

  predicate ProcessOnly(steps: seq<MStep>) {
    forall i :: 0 <= i < |steps| ==> steps[i].system.Process? && steps[i].result.None? && steps[i].cmpdOffset.None?
  }

  lemma RefreshStepsShape(key: string, i: Instance, rel: Related, relBytes: Option<Related>)
    ensures ProcessOnly(RefreshRelatedSteps(key, i, rel, relBytes))
  {
    if rel.PlayerRel? {
      PlayerRefreshesShape(rel.characters, Packed(i, relBytes));
    }
  }

  /** One refresh for each holder of a copy, in order, carrying the new instance, and then a read
      of the changed one; nothing when nobody holds a copy. */
  lemma RefreshStepsTell(key: string, i: Instance, rel: Related, relBytes: Option<Related>)
    ensures var steps, b := RefreshRelatedSteps(key, i, rel, relBytes), Packed(i, relBytes);
            match rel
            case CharacterRel(player) =>
              steps == (match player
                        case None => []
                        case Some(p) =>
                          [Step(Process, PLAYER, RefreshRelated, p.id, Some(RelRsp(CHARACTER, "Characters", b)), None,
                                None, None),
                           Step(Process, CHARACTER, Read, key, None, None, None, None)])
            case PlayerRel(list) =>
              if list == [] then steps == []
              else
                && |steps| == |list| + 1
                && steps[|list|] == Step(Process, PLAYER, Read, key, None, None, None, None)
                && forall j :: 0 <= j < |list| ==>
                     steps[j] == Step(Process, CHARACTER, RefreshRelated, list[j].id, Some(RelRsp(PLAYER, "Player", b)),
                                      None, None, None)
  {
    if rel.PlayerRel? {
      PlayerRefreshesShape(rel.characters, Packed(i, relBytes));
    }
  }

  lemma LogicChains(concern: string, command: Command, a: LogicArgs, store: MStore, step: MStep)
    requires step.system.Process? && step.concern == concern && step.command == command
    ensures var add := HandleLogic(concern, command, a, store).outcome.addSteps;
            FreshSteps(add) && HandlerChains(step, add)
  {
    forall key, i, rel, relBytes ensures ProcessOnly(RefreshRelatedSteps(key, i, rel, relBytes)) {
      RefreshStepsShape(key, i, rel, relBytes);
    }
  }

  lemma CrudChains(concern: string, system: System, command: Command, a: CrudArgs, db: MDb)
    ensures ProcessOnly(HandleCrud(concern, system, command, a, db).outcome.addSteps)
  {}

  /** The example handlers, in every state, satisfy the contract under which the engine's
      invariants hold. */
  lemma HandlersKeepContract(w: World, txn: MTxn, off: CompoundOffset, freshKey: string)
    requires InRange(txn)
    ensures var add := VisitOf(w, txn, off, freshKey).outcome.addSteps;
            FreshSteps(add) && HandlerChains(Current(txn), add)
  {
    var step := Current(txn);
    match Admit(txn, Topic(step.concern, step.system), off, Instances(StoreOf(w, step.concern)))
    case Admitted(inst) =>
      var s := Arrived(txn, off);
      assert s.system == step.system && s.concern == step.concern && s.command == step.command;
      var i := if inst.Some? && inst.value.Inst? then Some(inst.value.inst) else None;
      if step.system.Process? {
        LogicChains(step.concern, step.command, LogicArgs(s.key, i, s.payload, off), StoreOf(w, step.concern), step);
      }
      if s.cmpdOffset.Some? {
        CrudChains(step.concern, step.system, step.command, CrudArgs(s.key, s.payload, s.cmpdOffset.value, freshKey),
                   w.db);
      }
    case _ =>
  }

  lemma ServeLawful(w: World, txn: MTxn, off: CompoundOffset, freshKey: string)
    requires InFlight(txn)
    ensures LawfulFate(txn, Serve(w, txn, off, freshKey).fate)
    ensures Chained(txn) && Serve(w, txn, off, freshKey).fate.Forwarded? ==>
              Chained(Serve(w, txn, off, freshKey).fate.txn)
  {
    HandlersKeepContract(w, txn, off, freshKey);
    AdvanceLawful(txn, VisitOf(w, txn, off, freshKey));
    if Chained(txn) && Serve(w, txn, off, freshKey).fate.Forwarded? {
      AdvanceChained(txn, VisitOf(w, txn, off, freshKey));
    }
  }

  // ---------- a visit, seen on the pending steps ----------

  function Pending(txn: MTxn): seq<MStep>
    requires InRange(txn)
  {
    txn.forwardSteps[txn.currentStepIdx..]
  }

  function Finished(txn: MTxn): seq<MStep>
    requires InRange(txn)
  {
    txn.forwardSteps[..txn.currentStepIdx]
  }

  function AdmitAt(w: World, txn: MTxn, off: CompoundOffset): Admission<Bytes>
    requires InRange(txn)
  {
    var step := Current(txn);
    Admit(txn, Topic(step.concern, step.system), off, Instances(StoreOf(w, step.concern)))
  }

  predicate AnsweredOk(a: Answer<World>) { a.outcome.result.Some? && a.outcome.result.value.code.Ok? }

  /** The current step after a successful visit. */
  function SettledStep(w: World, txn: MTxn, off: CompoundOffset, freshKey: string): MStep
    requires InRange(txn) && AdmitAt(w, txn, off).Admitted? && AnsweredOk(Answered(w, txn, off, freshKey))
  {
    Settle(Arrived(txn, off), Answered(w, txn, off, freshKey).outcome.result.value, AdmitAt(w, txn, off).inst)
  }

  lemma CurrentInFlight(txn: MTxn)
    requires InFlight(txn)
    ensures Current(txn).result.None? && Pending(txn)[0] == Current(txn)
            && Pending(txn)[1..] == txn.forwardSteps[txn.currentStepIdx + 1..]
  {
    assert Pending(txn)[0] == Current(txn);
  }

  /** The message `t` is `txn` sent on a detour from its current step, `step` as stamped. */
  ghost predicate DetourOf(txn: MTxn, t: MTxn, step: MStep, off: CompoundOffset) {
    && InFlight(txn) && InFlight(t) && Finished(t) == Finished(txn) && t.currentStepIdx == txn.currentStepIdx
    && Pending(t) == [StorageRead(step, off)] + (if step.command.Read? then [] else [step]) + Pending(txn)[1..]
  }

  /** `fate` is that of `txn` whose current step ended as `settled` and added steps. */
  ghost predicate SuccessOf(txn: MTxn, fate: Fate<Bytes>, settled: MStep, add: seq<MStep>, off: CompoundOffset) {
    && InFlight(txn) && InRange(fate.txn) && !fate.Failed? && DoneOk(settled)
    && (fate.Completed? <==> add + Pending(txn)[1..] == [])
    && (fate.Forwarded? ==> InFlight(fate.txn) && Finished(fate.txn) == Finished(txn) + [settled]
                            && Pending(fate.txn) == InheritFirst(add + Pending(txn)[1..], settled, off))
    && (fate.Completed? ==> fate.txn.forwardSteps == Finished(txn) + [settled])
  }

  ghost predicate FailureOf(txn: MTxn, fate: Fate<Bytes>) {
    && InFlight(txn) && fate.Failed? && InRange(fate.txn) && Finished(fate.txn) == Finished(txn)
    && |Pending(fate.txn)| == |Pending(txn)| && Pending(fate.txn)[1..] == Pending(txn)[1..]
    && !DoneOk(Current(fate.txn)) && SameOrder(Current(txn), Current(fate.txn))
  }

  /** Equal but for the offset, the result and a key that was not there before. */
  predicate SameOrder(a: MStep, b: MStep) {
    a.system == b.system && a.concern == b.concern && a.command == b.command && a.payload == b.payload
        && (a.key != "" ==> b.key == a.key)
  }

  lemma ArrivedShape(txn: MTxn, off: CompoundOffset)
    requires InFlight(txn)
    ensures SameOrder(Current(txn), Arrived(txn, off)) && Arrived(txn, off).result.None?
    ensures Current(txn).key != "" ==> Arrived(txn, off).key == Current(txn).key
    ensures ResolveKey(txn).Some? ==> Arrived(txn, off) == Stamp(Current(txn), ResolveKey(txn).value, off)
  {
    CurrentInFlight(txn);
  }

  /** A cache miss forwards the message with a storage read in front or in place. */
  lemma ServeMissed(w: World, txn: MTxn, off: CompoundOffset, freshKey: string)
    requires InFlight(txn) && AdmitAt(w, txn, off).Missed?
    ensures var r := Serve(w, txn, off, freshKey);
            r.world == w && r.fate.Forwarded? && DetourOf(txn, r.fate.txn, Arrived(txn, off), off)
  {
    var step := Current(txn);
    var t := Stamped(txn, Topic(step.concern, step.system), off);
    StampedInFlight(txn, Topic(step.concern, step.system), off);
    DetourLawful(txn, t, off, true);
    CurrentInFlight(txn);
    CurrentInFlight(t);
    var d := Detour(t, off);
    assert Pending(d)[0] == d.forwardSteps[txn.currentStepIdx];
  }

  /** A successful visit settles the current step and puts the added steps before the rest. */
  lemma ServeAdmitted(w: World, txn: MTxn, off: CompoundOffset, freshKey: string)
    requires InFlight(txn) && AdmitAt(w, txn, off).Admitted? && AnsweredOk(Answered(w, txn, off, freshKey))
    ensures var r, a := Serve(w, txn, off, freshKey), Answered(w, txn, off, freshKey);
            r.world == a.state && SuccessOf(txn, r.fate, SettledStep(w, txn, off, freshKey), a.outcome.addSteps, off)
  {
    var step := Current(txn);
    var t := Stamped(txn, Topic(step.concern, step.system), off);
    StampedInFlight(txn, Topic(step.concern, step.system), off);
    HandlersKeepContract(w, txn, off, freshKey);
    CurrentInFlight(txn);
    var a := Answered(w, txn, off, freshKey);
    FinishShape(t, off, AdmitAt(w, txn, off).inst, a.outcome);
    ServeLawful(w, txn, off, freshKey);
    var rest, settled, n := a.outcome.addSteps + Pending(txn)[1..], SettledStep(w, txn, off, freshKey),
        txn.currentStepIdx;
    SplitAt(Finished(txn) + [settled], InheritFirst(rest, settled, off), n + 1);
  }

  lemma SplitAt<T>(a: seq<T>, b: seq<T>, n: nat)
    requires n == |a|
    ensures (a + b)[..n] == a && (a + b)[n..] == b
  {
  }

  /** Otherwise the message ends on the error topic; its finished steps are as before. */
  lemma ServeStops(w: World, txn: MTxn, off: CompoundOffset, freshKey: string)
    requires InFlight(txn) && !AdmitAt(w, txn, off).Missed?
    requires AdmitAt(w, txn, off).Rejected? || !AnsweredOk(Answered(w, txn, off, freshKey))
    ensures var r := Serve(w, txn, off, freshKey);
            FailureOf(txn, r.fate) && (freshKey != "" ==> r.world == w)
  {
    var step := Current(txn);
    StampedInFlight(txn, Topic(step.concern, step.system), off);
    CurrentInFlight(txn);
    if freshKey != "" && AdmitAt(w, txn, off).Admitted? {
      RefusedChangesNothing(w, Arrived(txn, off), AdmitAt(w, txn, off).inst, off, freshKey);
    }
  }

  predicate Succeeded(o: Outcome<Bytes>) { o.result.Some? && o.result.value.code.Ok? }

  lemma LogicRefusal(concern: string, command: Command, a: LogicArgs, store: MStore)
    requires !Succeeded(HandleLogic(concern, command, a, store).outcome)
    ensures HandleLogic(concern, command, a, store).state == store
  {
  }

  lemma CrudRefusal(concern: string, system: System, command: Command, a: CrudArgs, db: MDb)
    requires a.freshKey != "" && !Succeeded(HandleCrud(concern, system, command, a, db).outcome)
    ensures HandleCrud(concern, system, command, a, db).state == db
  {
  }

  /** A handler that does not succeed has done nothing. */
  lemma RefusedChangesNothing(w: World, step: MStep, inst: Option<Bytes>, off: CompoundOffset, freshKey: string)
    requires freshKey != "" && !AnsweredOk(HandleCommand(w, step, inst, off, freshKey))
    ensures HandleCommand(w, step, inst, off, freshKey).state == w
  {
    if step.system.Process? {
      var i := if inst.Some? && inst.value.Inst? then Some(inst.value.inst) else None;
      var a := LogicArgs(step.key, i, step.payload, off);
      if !Succeeded(HandleLogic(step.concern, step.command, a, StoreOf(w, step.concern)).outcome) {
        LogicRefusal(step.concern, step.command, a, StoreOf(w, step.concern));
      }
    } else if IsStorageSystem(step.system) && step.cmpdOffset.Some? {
      var a := CrudArgs(step.key, step.payload, step.cmpdOffset.value, freshKey);
      if !Succeeded(HandleCrud(step.concern, step.system, step.command, a, w.db).outcome) {
        CrudRefusal(step.concern, step.system, step.command, a, w.db);
      }
    }
  }

  /** A refresh is never handed an instance, whatever the cache holds, so it never tells the
      instances that hold a copy. */
  lemma RefreshGetsNoInstance(w: World, txn: MTxn, off: CompoundOffset, freshKey: string)
    requires InRange(txn) && Current(txn).system.Process? && Current(txn).command.RefreshInstance?
    ensures AdmitAt(w, txn, off).Admitted? ==> AdmitAt(w, txn, off).inst.None?
    ensures VisitOf(w, txn, off, freshKey).outcome.addSteps == []
  {
  }

  // ---------- spawned transactions ----------

  lemma SpawnedAddsNothing(w: World, step: MStep, inst: Option<Bytes>, off: CompoundOffset, freshKey: string)
    requires ApecsFanouts.IsSpawnedStep(step)
    ensures HandleCommand(w, step, inst, off, freshKey).outcome.addSteps == []
  {
  }

  /** Engine and handlers together: a spawned transaction ends at its first visit, in any state,
      and spawns nothing itself. */
  lemma SpawnedEnds(w: World, id: string, parent: string, step: MStep, off: CompoundOffset, freshKey: string,
                    codec: ApecsFanouts.Codec<Bytes>)
    requires id != "" && ApecsFanouts.IsSpawnedStep(step)
    ensures InRange(ApecsFanouts.SpawnedTxn(id, parent, step))
    ensures var f := Serve(w, ApecsFanouts.SpawnedTxn(id, parent, step), off, freshKey).fate;
            && !f.Forwarded?
            && (f.Completed? ==> AllOk(f.txn.forwardSteps) && ApecsFanouts.Secondary(f.txn.forwardSteps) == []
                                 && ApecsFanouts.Updates(f.txn.forwardSteps, codec) == map[])
  {
    var t := ApecsFanouts.SpawnedTxn(id, parent, step);
    if AdmitAt(w, t, off).Admitted? {
      SpawnedAddsNothing(w, Arrived(t, off), AdmitAt(w, t, off).inst, off, freshKey);
    }
    ApecsFanouts.SpawnedSpawnNothing(id, parent, step, VisitOf(w, t, off, freshKey), codec);
  }

  // ---------- what clients submit ----------

  predicate ToCharacters(step: MStep) { step.system.Process? && step.concern == CHARACTER }

  /** A step on a character: a command or a read, by its key. */
  predicate Teller(step: MStep) {
    ToCharacters(step) && step.key != "" && (step.command.Platform? || step.command.Read?) && step.result.None?
  }

  function Without<T>(s: seq<T>, i: nat): seq<T>
    requires i < |s|
  {
    s[..i] + s[i + 1..]
  }
}
