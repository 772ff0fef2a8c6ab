/**
 The generated handlers as they run: HandleLogicCommand against the instance cache of a
 process consumer and HandleCrudCommand against a database, each a sequence of writes, each
 proved against its value in Rpg. HandleLogicCommand serves both concerns; the branches for
 commands of the other concern answer as the generated default does.
 */
module RpgHandlers {
  import opened Wrappers
  import opened ApecsTxns
  import opened ApecsRunners
  import opened InstanceStores
  import opened RamDbs
  import opened Rpg

  type Cache = InstanceStore<Instance, Related>
  type Database = RamDb<Instance, Related>

  function Failure(code: Code): Outcome<Bytes> { Outcome(Some(Result(code, "", None, None, None)), []) }

  method GetRelatedOrEmpty(key: string, concern: string,
                           store: Cache) returns (rel: Option<Related>, relBytes: Option<Related>)
    ensures rel == RelatedOf(store.instances, key, concern) && relBytes == GetRelated(store.instances, key)
  {
    relBytes := store.GetRelatedOf(key);
    if relBytes.None? {
      rel := Some(EmptyRel(concern));
    } else if RelIsA(relBytes.value, concern) {
      rel := relBytes;
    } else {
      rel := None;
    }
  }

  method GetPackedOf(key: string, store: Cache) returns (r: Option<Bytes>)
    ensures r == GetPacked(store.instances, key)
  {
    var rec := store.Get(key);
    if rec.None? { return None; }
    r := Some(Packed(rec.value.inst, rec.value.rel));
  }

  /** The list a changed player sends its characters. */
  method RefreshCharacters(characters: seq<Character>, payload: Bytes) returns (steps: seq<MStep>)
    ensures steps == PlayerRefreshes(characters, payload)
  {
    steps := [];
    for i := 0 to |characters|
      invariant steps + PlayerRefreshes(characters[i..], payload) == PlayerRefreshes(characters, payload)
    {
      var step := ProcessStep(CHARACTER, RefreshRelated, characters[i].id, Some(RelRsp(PLAYER, "Player", payload)));
      assert characters[i..][0] == characters[i] && characters[i..][1..] == characters[i + 1..];
      assert steps + ([step] + PlayerRefreshes(characters[i + 1..], payload))
               == steps + [step] + PlayerRefreshes(characters[i + 1..], payload);
      steps := steps + [step];
    }
    assert characters[|characters|..] == [];
  }

  method RefreshSteps(key: string, i: Instance, rel: Related, relBytes: Option<Related>) returns (steps: seq<MStep>)
    ensures steps == RefreshRelatedSteps(key, i, rel, relBytes)
  {
    steps := [];
    var payload := Packed(i, relBytes);
    var concern := PLAYER;
    match rel {
      case CharacterRel(player) =>
        concern := CHARACTER;
        if player.Some? {
          steps := steps + [ProcessStep(PLAYER, RefreshRelated, player.value.id,
                                        Some(RelRsp(CHARACTER, "Characters", payload)))];
        }
      case PlayerRel(list) =>
        steps := RefreshCharacters(list, payload);
    }
    if |steps| > 0 {
      steps := steps + [ProcessStep(concern, Read, key, None)];
    }
  }

  /** Fund, DebitFunds and CreditFunds. */
  method HandlePlatformCommand(concern: string, name: string, args: LogicArgs, store: Cache) returns (o: Outcome<Bytes>)
    modifies store
    ensures o == HandlePlatform(concern, name, args, old(store.instances)).outcome
    ensures store.instances == HandlePlatform(concern, name, args, old(store.instances)).state
  {
    if concern != CHARACTER || args.inst.None? || !args.inst.value.CharacterInst? || args.payload.None?
        || !args.payload.value.Funding? {
      return Failure(Internal);
    }
    var inst := args.inst.value.c;
    var result := RunCommand(name, inst, args.payload.value.fr);
    if result.Panicked? { return Outcome(None, []); }
    if result.Refused? { return Failure(result.code); }
    inst := result.value;
    var rslt := OkResult(Some(Inst(CharacterInst(inst))));
    var addSteps: seq<MStep> := [];
    if inst != args.inst.value.c {
      var rel, relBytes := GetRelatedOrEmpty(args.key, concern, store);
      if rel.None? { return Failure(Internal); }
      addSteps := RefreshSteps(args.key, CharacterInst(inst), rel.value, relBytes);
      rslt := rslt.(instance := Some(Inst(CharacterInst(inst))));
      store.PutInstance(args.key, CharacterInst(inst), args.off);
    }
    o := Outcome(Some(rslt), addSteps);
  }

  method HandleRefreshInstanceCommand(concern: string, args: LogicArgs, store: Cache) returns (o: Outcome<Bytes>)
    modifies store
    ensures o == HandleRefreshInstance(concern, args, old(store.instances)).outcome
    ensures store.instances == HandleRefreshInstance(concern, args, old(store.instances)).state
  {
    if args.payload.None? || PayloadInst(args.payload.value).None?
        || !IsA(PayloadInst(args.payload.value).value, concern) { return Failure(Internal); }
    var inst := PayloadInst(args.payload.value).value;
    var relBytes := ParsedRel(args.payload.value);
    var rel := EmptyRel(concern);
    if relBytes.Some? {
      if !RelIsA(relBytes.value, concern) { return Failure(Internal); }
      rel := relBytes.value;
    } else {
      relBytes := store.GetRelatedOf(args.key);
    }
    var addSteps: seq<MStep> := [];
    if args.inst.Some? {
      addSteps := RefreshSteps(args.key, inst, rel, relBytes);
    }
    store.Put(args.key, inst, relBytes, args.off);
    var packed := GetPackedOf(args.key, store);
    o := Outcome(Some(OkResult(packed)), addSteps);
  }

  /** REQUEST_RELATED and REFRESH_RELATED. */
  method HandleRelatedCommand(concern: string, command: Command, args: LogicArgs,
                              store: Cache) returns (o: Outcome<Bytes>)
    requires command.RequestRelated? || command.RefreshRelated?
    modifies store
    ensures o == HandleRelated(concern, command, args, old(store.instances)).outcome
    ensures store.instances == HandleRelated(concern, command, args, old(store.instances)).state
  {
    var rel, _ := GetRelatedOrEmpty(args.key, concern, store);
    if args.payload.None? || rel.None? { return Failure(Internal); }
    var change := RelRefused;
    if command.RequestRelated? {
      if !args.payload.value.RelReq? || args.inst.None? { return Failure(Internal); }
      change := OnRequestRelated(rel.value, args.payload.value.concern, args.payload.value.field,
                                 args.payload.value.payload);
    } else {
      if !args.payload.value.RelRsp? { return Failure(Internal); }
      change := OnRefreshRelated(rel.value, args.payload.value.concern, args.payload.value.field,
                                 args.payload.value.payload);
    }
    if change.RelRefused? { return Failure(Internal); }
    if change.changed {
      var ok := store.PutRelated(args.key, RelBytes(change.rel), args.off);
      if !ok { return Failure(Internal); }
    }
    if command.RequestRelated? {
      var relReq := args.payload.value;
      var relRsp := RelRsp(concern, relReq.field, Packed(args.inst.value, RelBytes(change.rel)));
      o := Outcome(Some(OkResult(Some(relRsp))),
                   [ProcessStep(relReq.concern, RefreshRelated, relReq.key, Some(relRsp))]);
    } else {
      var packed := GetPackedOf(args.key, store);
      o := Outcome(Some(OkResult(packed)), []);
    }
  }

  method HandleLogicCommand(concern: string, command: Command, args: LogicArgs,
                            store: Cache) returns (o: Outcome<Bytes>)
    modifies store
    ensures o == HandleLogic(concern, command, args, old(store.instances)).outcome
    ensures store.instances == HandleLogic(concern, command, args, old(store.instances)).state
  {
    match command {
      case Create => o := Failure(Internal);
      case UpdateAsync => o := Failure(Internal);
      case Read =>
        if args.inst.None? { return Failure(Internal); }
        var related := store.GetRelatedOf(args.key);
        o := Outcome(Some(OkResult(Some(Packed(args.inst.value, related)))), []);
      case Update =>
        if args.payload.None? || !args.payload.value.Inst? { return Failure(Internal); }
        var related := store.GetRelatedOf(args.key);
        var payload := Packed(args.payload.value.inst, related);
        o := Outcome(Some(OkResult(None)), [StorageStep(concern, command, args.key, Some(payload))]);
      case Delete =>
        var packed := GetPackedOf(args.key, store);
        o := Outcome(Some(OkResult(None)), [StorageStep(concern, command, args.key, packed)]);
      case RefreshInstance => o := HandleRefreshInstanceCommand(concern, args, store);
      case FlushInstance =>
        var packed := GetPackedOf(args.key, store);
        if packed.Some? {
          store.Delete(args.key);
        } else {
          assert Remove(store.instances, args.key) == store.instances;
        }
        o := Outcome(Some(OkResult(packed)), []);
      case ValidateCreate =>
        if args.payload.None? || !args.payload.value.Inst?
            || !IsA(args.payload.value.inst, concern) { return Failure(Internal); }
        var payloadOut := ValidateCreateInst(args.payload.value.inst);
        if !payloadOut.Done? { return Failure(InvalidArgument); }
        o := Outcome(Some(OkResult(Some(Inst(payloadOut.value)))), []);
      case ValidateUpdate =>
        if args.inst.None? || args.payload.None? || !args.payload.value.Inst?
            || !IsA(args.payload.value.inst, concern) { return Failure(Internal); }
        var payloadOut := ValidateUpdateInst(args.inst.value, args.payload.value.inst);
        if !payloadOut.Done? { return Failure(InvalidArgument); }
        o := Outcome(Some(OkResult(Some(Inst(payloadOut.value)))), []);
      case RequestRelated => o := HandleRelatedCommand(concern, command, args, store);
      case RefreshRelated => o := HandleRelatedCommand(concern, command, args, store);
      case Platform(name) => o := HandlePlatformCommand(concern, name, args, store);
    }
  }

  method HandleCreate(concern: string, system: System, args: CrudArgs, given: Instance, rel: Option<Related>,
                      db: Database) returns (o: Outcome<Bytes>)
    requires IsStorageSystem(system) && args.payload.Some? && PayloadInst(args.payload.value) == Some(given)
             && IsA(given, concern) && rel == ParsedRel(args.payload.value)
    modifies db
    ensures o == HandleCrud(concern, system, Create, args, old(db.concerns)).outcome
    ensures db.concerns == HandleCrud(concern, system, Create, args, old(db.concerns)).state
  {
    if system.StorageScnd? && InstKey(given) == "" { return Failure(Internal); }
    var instOut := given;
    if InstKey(instOut) == "" {
      instOut := WithKey(instOut, args.freshKey);
    }
    db.Create(concern, InstKey(instOut), instOut, args.off);
    if system.StorageScnd? {
      return Outcome(Some(Result(Ok, InstKey(instOut), args.payload, None, None)), []);
    }
    if InstKey(instOut) == "" {
      db.Delete(concern, InstKey(instOut), args.off);
      return Failure(Internal);
    }
    var payload := Packed(instOut, rel);
    var addSteps := [ProcessStep(concern, RefreshInstance, InstKey(instOut), Some(payload))];
    addSteps := addSteps + RequestRelatedSteps(instOut);
    o := Outcome(Some(Result(Ok, InstKey(instOut), Some(payload), None, Some(args.off))), addSteps);
  }

  method HandleUpdate(concern: string, system: System, command: Command, args: CrudArgs, given: Instance,
                      rel: Option<Related>, db: Database) returns (o: Outcome<Bytes>)
    requires command.Update? || command.UpdateAsync?
    requires IsStorageSystem(system) && args.payload.Some? && PayloadInst(args.payload.value) == Some(given)
             && IsA(given, concern) && rel == ParsedRel(args.payload.value)
    modifies db
    ensures o == HandleCrud(concern, system, command, args, old(db.concerns)).outcome
    ensures db.concerns == HandleCrud(concern, system, command, args, old(db.concerns)).state
  {
    var related := EmptyRel(concern);
    if rel.Some? {
      if !RelIsA(rel.value, concern) { return Failure(Internal); }
      related := rel.value;
    }
    db.Update(concern, InstKey(given), given, Some(related), args.off);
    if system.StorageScnd? || command.UpdateAsync? {
      return Outcome(Some(OkResult(None)), []);
    }
    var payload := Packed(given, rel);
    o := Outcome(Some(Result(Ok, InstKey(given), Some(payload), None, None)),
                 [ProcessStep(concern, RefreshInstance, InstKey(given), Some(payload))]);
  }

  method HandleCrudCommand(concern: string, system: System, command: Command, args: CrudArgs,
                           db: Database) returns (o: Outcome<Bytes>)
    requires IsStorageSystem(system)
    modifies db
    ensures o == HandleCrud(concern, system, command, args, old(db.concerns)).outcome
    ensures db.concerns == HandleCrud(concern, system, command, args, old(db.concerns)).state
  {
    if command.Create? || command.Update? || command.UpdateAsync? {
      if args.payload.None? || PayloadInst(args.payload.value).None?
          || !IsA(PayloadInst(args.payload.value).value, concern) { return Failure(Internal); }
      var given, rel := PayloadInst(args.payload.value).value, ParsedRel(args.payload.value);
      if command.Create? {
        o := HandleCreate(concern, system, args, given, rel, db);
      } else {
        o := HandleUpdate(concern, system, command, args, given, rel, db);
      }
    } else if command.Read? && system.Storage? {
      var item := db.Read(concern, args.key);
      if item.None? { return Failure(Internal); }
      if item.value.rel.None? { return Outcome(None, []); }
      var payload := Packed(item.value.inst, RelBytes(item.value.rel.value));
      o := Outcome(Some(Result(Ok, InstKey(item.value.inst), Some(payload), None, Some(item.value.cmpdOffset))),
                   [ProcessStep(concern, RefreshInstance, InstKey(item.value.inst), Some(payload))]);
    } else if command.Delete? {
      db.Delete(concern, args.key, args.off);
      var addSteps: seq<MStep> := [];
      if system.Storage? {
        addSteps := addSteps + [ProcessStep(concern, FlushInstance, args.key, None)];
      }
      o := Outcome(Some(Result(Ok, args.key, None, None, None)), addSteps);
    } else {
      o := Failure(Internal);
    }
  }
}
