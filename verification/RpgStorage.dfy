/**
 What reaches the database: the effect of each storage command on its cell, what a changed
 instance leaves to store, and the way of that update through the engine and back into a
 cache that has lost the record.
 */
module RpgStorages {
  import opened Wrappers
  import opened Offsets
  import opened ApecsTxns
  import opened ApecsRunners
  import opened ApecsFanouts
  import opened InstanceStores
  import opened RamDbs
  import opened Rpg
  import opened RpgWorlds
  import opened RpgCold
  import RpgColdWarm
  import Topics

  // ---------- storage commands, seen on one cell ----------

  type MItem = Item<Instance, Related>

  /** The cell takes a write or delete at `off` unless its item has that offset or a greater
      one. */
  predicate Takes(cell: Option<MItem>, off: CompoundOffset) {
    cell == None || OffsetGT(off, cell.value.cmpdOffset)
  }

  /** `after` differs from `before` at most in one cell, which holds `item` if it took the
      command. */
  ghost predicate CellBecomes(before: MDb, after: MDb, concern: string, key: string, item: Option<MItem>,
                              off: CompoundOffset) {
    && Lookup(after, concern, key) == (if Takes(Lookup(before, concern, key), off) then item
                                       else Lookup(before, concern, key))
    && forall c: string, k: string :: c != concern || k != key ==> Lookup(after, c, k) == Lookup(before, c, k)
  }

  /** A payload with an instance of the concern. */
  predicate HoldsInst(payload: Option<Bytes>, concern: string, i: Instance, rel: Option<Related>) {
    IsA(i, concern) && (payload == Some(Packed(i, rel)) || (payload == Some(Inst(i)) && rel == None))
  }

  /** Its related bytes, if any, decode. */
  predicate Carries(payload: Option<Bytes>, concern: string, i: Instance, rel: Option<Related>) {
    HoldsInst(payload, concern, i, rel) && (rel.Some? ==> RelIsA(rel.value, concern))
  }

  /** Related bytes decoded: none are an empty value. */
  function Decoded(rel: Option<Related>, concern: string): Related {
    match rel
    case Some(r) => r
    case None => if concern == CHARACTER then CharacterRel(None) else PlayerRel([])
  }

  /** The step that brings a stored instance to the cache. */
  function Refresh(concern: string, i: Instance, rel: Option<Related>): MStep {
    Step(Process, concern, RefreshInstance, InstKey(i), Some(Packed(i, rel)), None, None, None)
  }

  predicate IsUpdate(command: Command) { command == Update || command == UpdateAsync }

  /** An update of the primary database is refreshed in the cache; others answer nothing. */
  predicate UpdateAnswered(o: Outcome<Bytes>, concern: string, system: System, command: Command, i: Instance,
                           rel: Option<Related>) {
    && Succeeded(o) && o.addSteps == (if command == Update && system == Storage then [Refresh(concern, i, rel)] else [])
    && (command == Update && system == Storage ==>
          o.result.value.key == InstKey(i) && o.result.value.payload == Some(Packed(i, rel)))
  }

  /** A create names the key; in the primary database it is refreshed in the cache and answers with
      what it stored, at its offset. */
  predicate CreateAnswered(o: Outcome<Bytes>, concern: string, system: System, a: CrudArgs, key: string, i: Instance,
                           rel: Option<Related>) {
    && Succeeded(o) && o.result.value.key == key
    && if system == StorageScnd then o.addSteps == [] && o.result.value.payload == a.payload
       else o.addSteps != [] && o.addSteps[0] == Refresh(concern, i, rel)
            && o.result.value.payload == Some(Packed(i, rel)) && o.result.value.cmpdOffset == Some(a.off)
  }

  lemma WriteCell(db: MDb, concern: string, key: string, i: Instance, rel: Option<Related>, off: CompoundOffset)
    ensures CellBecomes(db, Write(db, concern, key, i, rel, off), concern, key, Some(Item(i, rel, off)), off)
  {
  }

  lemma UpdateWrites(concern: string, system: System, command: Command, a: CrudArgs, db: MDb, i: Instance,
                     rel: Option<Related>)
    requires IsStorageSystem(system) && IsUpdate(command) && Carries(a.payload, concern, i, rel)
    ensures var r := HandleCrud(concern, system, command, a, db);
            && UpdateAnswered(r.outcome, concern, system, command, i, rel)
            && r.state == Write(db, concern, InstKey(i), i, Some(Decoded(rel, concern)), a.off)
  {
  }

  /** An update leaves the item with the related value it carries, an empty one if it carries none,
      unless the stored item has its offset or a greater one; nothing else changes. */
  lemma UpdateStores(concern: string, system: System, command: Command, a: CrudArgs, db: MDb, i: Instance,
                     rel: Option<Related>)
    requires IsStorageSystem(system) && IsUpdate(command) && Carries(a.payload, concern, i, rel)
    ensures var r := HandleCrud(concern, system, command, a, db);
            && UpdateAnswered(r.outcome, concern, system, command, i, rel)
            && CellBecomes(db, r.state, concern, InstKey(i), Some(Item(i, Some(Decoded(rel, concern)), a.off)), a.off)
  {
    UpdateWrites(concern, system, command, a, db, i, rel);
    WriteCell(db, concern, InstKey(i), i, Some(Decoded(rel, concern)), a.off);
  }

  lemma CreateWrites(concern: string, system: System, a: CrudArgs, db: MDb, i: Instance, rel: Option<Related>)
    requires IsStorageSystem(system) && HoldsInst(a.payload, concern, i, rel) && a.freshKey != ""
    ensures var r, k := HandleCrud(concern, system, Create, a, db), if InstKey(i) == "" then a.freshKey else InstKey(i);
            if system == StorageScnd && InstKey(i) == "" then !Succeeded(r.outcome) && r.state == db
            else
              && CreateAnswered(r.outcome, concern, system, a, k, WithKey(i, k), rel)
              && r.state == Write(db, concern, k, WithKey(i, k), None, a.off)
  {
  }

  /** A create leaves an item without related value, under the instance's key or a fresh one. */
  lemma CreateStores(concern: string, system: System, a: CrudArgs, db: MDb, i: Instance, rel: Option<Related>)
    requires IsStorageSystem(system) && HoldsInst(a.payload, concern, i, rel) && a.freshKey != ""
    ensures var r, k := HandleCrud(concern, system, Create, a, db), if InstKey(i) == "" then a.freshKey else InstKey(i);
            if system == StorageScnd && InstKey(i) == "" then !Succeeded(r.outcome) && r.state == db
            else
              && CreateAnswered(r.outcome, concern, system, a, k, WithKey(i, k), rel)
              && CellBecomes(db, r.state, concern, k, Some(Item(WithKey(i, k), None, a.off)), a.off)
  {
    var k := if InstKey(i) == "" then a.freshKey else InstKey(i);
    CreateWrites(concern, system, a, db, i, rel);
    WriteCell(db, concern, k, WithKey(i, k), None, a.off);
  }

  /** A delete leaves no item, and has the primary database's record dropped from the cache. */
  lemma DeleteErases(concern: string, system: System, a: CrudArgs, db: MDb)
    requires IsStorageSystem(system)
    ensures var r := HandleCrud(concern, system, Delete, a, db);
            && Succeeded(r.outcome) && r.outcome.result.value.key == a.key
            && r.outcome.addSteps ==
                 (if system == Storage then [Step(Process, concern, FlushInstance, a.key, None, None, None, None)]
                  else [])
            && CellBecomes(db, r.state, concern, a.key, None, a.off)
  {
  }

  /** A read of the primary database answers with the item, its key and its offset, and has it
      refreshed in the cache; of an item without related value it panics, and without an item, or
      in a secondary database, it is refused. */
  lemma ReadsItem(concern: string, system: System, a: CrudArgs, db: MDb)
    requires IsStorageSystem(system)
    ensures var r, cell := HandleCrud(concern, system, Read, a, db), Lookup(db, concern, a.key);
            && r.state == db
            && if system == StorageScnd || cell == None then
                 r.outcome == Outcome(Some(Result(Internal, "", None, None, None)), [])
               else if cell.value.rel == None then r.outcome == Outcome(None, [])
               else
                 var i, rel := cell.value.inst, if IsEmptyRel(cell.value.rel.value) then None else cell.value.rel;
                 r.outcome == Outcome(Some(Result(Ok, InstKey(i), Some(Packed(i, rel)), None,
                                                  Some(cell.value.cmpdOffset))), [Refresh(concern, i, rel)])
  {
  }

  /** A create or an update with any other payload is refused, and nothing is stored. */
  lemma OtherRefused(concern: string, system: System, command: Command, a: CrudArgs, db: MDb)
    requires || (IsUpdate(command) && forall i: Instance, rel: Option<Related> :: !Carries(a.payload, concern, i, rel))
             || (command == Create && forall i: Instance, rel: Option<Related> ::
                   !HoldsInst(a.payload, concern, i, rel))
    ensures HandleCrud(concern, system, command, a, db)
            == Answer(Outcome(Some(Result(Internal, "", None, None, None)), []), db)
  {
    if a.payload.Some? && PayloadInst(a.payload.value).Some? {
      var i, rel := PayloadInst(a.payload.value).value, ParsedRel(a.payload.value);
      assert command == Create ==> !HoldsInst(a.payload, concern, i, rel);
      assert command != Create ==> !Carries(a.payload, concern, i, rel);
    }
  }

  // ---------- what a changed instance leaves to store ----------

  /** The codec of a completion in a consumer that caches `held`. */
  function CodecOver(held: MStore): Codec<Bytes> {
    Codec((b: Bytes, key: string) => if b.Inst? then Packed(b.inst, GetRelated(held, key)) else b,
          (b: Option<Bytes>) => if b.Some? && b.value.RelRsp? then Some(b.value.payload) else None)
  }

  /** What the engine hands a handler of its cached instance. */
  predicate Handed(a: LogicArgs, store: MStore) { a.inst.Some? ==> a.key in store && store[a.key].inst == a.inst.value }

  /** Whatever a PROCESS command has left to store is the record now in the cache: the answer to
      a related request or refresh has all of it, a changed instance its instance. */
  lemma LeavesRecord(concern: string, command: Command, a: LogicArgs, store: MStore)
    requires InOrder(store, a.key, a.off) && Handed(a, store)
             && Succeeded(HandleLogic(concern, command, a, store).outcome)
    ensures var r, s := HandleLogic(concern, command, a, store).outcome.result.value,
                        HandleLogic(concern, command, a, store).state;
            && (r.instance.Some? ==> command.Platform? && a.key in s && r.instance == Some(Inst(s[a.key].inst)))
            && (command == RefreshRelated ==> a.key in s && r.payload == Some(Packed(s[a.key].inst, s[a.key].rel)))
            && (command == RequestRelated ==>
                  && a.key in s && r.payload.Some? && r.payload.value.RelRsp? && r.payload.value.concern == concern
                  && r.payload.value.payload.Packed? && r.payload.value.payload.inst == s[a.key].inst
                  && Decoded(r.payload.value.payload.rel, concern) == Decoded(s[a.key].rel, concern))
  {
  }

  /** Every other PROCESS command that succeeds answers with the record as it is cached: after a
      read or a refresh, before a flush; a validation with what it was given, a command with the
      instance it leaves. An update or a delete answers nothing itself and goes to storage, with
      the cached related bytes or record. */
  lemma AnswersRecord(concern: string, command: Command, a: LogicArgs, store: MStore)
    requires InOrder(store, a.key, a.off) && Handed(a, store)
             && Succeeded(HandleLogic(concern, command, a, store).outcome)
    ensures var o, s := HandleLogic(concern, command, a, store).outcome, HandleLogic(concern, command, a, store).state;
            var r, was, now := o.result.value, RecordAt(store, a.key), RecordAt(s, a.key);
            match command
            case Read => s == store && was.Some? && r.payload == was && o.addSteps == []
            case RefreshInstance => now.Some? && r.payload == now
            case FlushInstance => now == None && r.payload == was && o.addSteps == []
            case ValidateCreate => s == store && a.payload.Some? && r.payload == a.payload && o.addSteps == []
            case ValidateUpdate => s == store && a.payload.Some? && r.payload == a.payload && o.addSteps == []
            case Platform(_) => now.Some? && r.payload == Some(Inst(now.value.inst))
            case Update =>
              && s == store && r.payload == None && a.payload.Some? && a.payload.value.Inst?
              && o.addSteps == [Step(Storage, concern, Update, a.key, Some(Packed(a.payload.value.inst,
                                                                                  if was.Some? then was.value.rel
                                                                                  else None)), None, None, None)]
            case Delete =>
              && s == store && r.payload == None
              && o.addSteps == [Step(Storage, concern, Delete, a.key, was, None, None, None)]
            case _ => true
  {
  }

  /** Names long enough: two characters for a character, four for a player. */
  predicate LongName(i: Instance) {
    match i
    case CharacterInst(c) => 2 <= |c.fullname|
    case PlayerInst(p) => 4 <= |p.username|
  }

  /** A validation succeeds exactly for an instance of the concern with a long enough name; an
      update may change neither the key nor the name of a player. */
  lemma ValidatesExactly(concern: string, a: LogicArgs, store: MStore)
    ensures Succeeded(HandleLogic(concern, ValidateCreate, a, store).outcome) <==>
              && a.payload.Some? && a.payload.value.Inst? && IsA(a.payload.value.inst, concern)
              && LongName(a.payload.value.inst)
    ensures Succeeded(HandleLogic(concern, ValidateUpdate, a, store).outcome) <==>
              && a.inst.Some? && a.payload.Some? && a.payload.value.Inst? && IsA(a.payload.value.inst, concern)
              && LongName(a.payload.value.inst) && InstKey(a.payload.value.inst) != ""
              && InstKey(a.payload.value.inst) == InstKey(a.inst.value)
              && (a.inst.value.PlayerInst? && a.payload.value.inst.PlayerInst? ==>
                    a.inst.value.p.username == a.payload.value.inst.p.username)
  {
  }

  /** A logic command that does not succeed adds nothing and answers with a bare code: what a
      validation or a command refuses is an invalid argument, a command may panic, and all else, with
      every CREATE and UPDATE_ASYNC, is an internal error. */
  lemma RefusalCodes(concern: string, command: Command, a: LogicArgs, store: MStore)
    ensures var o := HandleLogic(concern, command, a, store).outcome;
            && (command == Create || command == UpdateAsync ==> !Succeeded(o))
            && (!Succeeded(o) ==>
                  && o.addSteps == []
                  && match o.result
                     case None => command.Platform? && concern == CHARACTER
                     case Some(r) =>
                       && r == Result(r.code, "", None, None, None)
                       && (!Judged(concern, command, a) ==> r.code == Internal)
                       && (Judged(concern, command, a)
                           && (GetRelated(store, a.key) == None || RelIsA(GetRelated(store, a.key).value, concern)) ==>
                             r.code == InvalidArgument))
  {
  }

  /** The arguments are all there, and what they say is judged. */
  predicate Judged(concern: string, command: Command, a: LogicArgs) {
    && a.payload.Some?
    && match command
       case ValidateCreate => a.payload.value.Inst? && IsA(a.payload.value.inst, concern)
       case ValidateUpdate => a.inst.Some? && a.payload.value.Inst? && IsA(a.payload.value.inst, concern)
       case Platform(name) =>
         && concern == CHARACTER && a.inst.Some? && a.inst.value.CharacterInst? && a.payload.value.Funding?
         && (name == "Fund" || name == "DebitFunds" || name == "CreditFunds")
       case _ => false
  }

  /** The related message carries an instance of concern `of` for this field. */
  predicate Tells(b: Bytes, field: string, of: string)
    requires b.RelReq? || b.RelRsp?
  {
    b.field == field && b.concern == of && b.payload.Packed? && IsA(b.payload.inst, of)
  }

  /** A related request or refresh succeeds exactly when the cached related bytes decode and what
      it carries is the other side of the relation, for a cached instance; a character answers
      any request with itself as it is. */
  lemma RelatedExactly(concern: string, a: LogicArgs, store: MStore)
    requires IsConcern(concern) && a.payload.Some? && Handed(a, store)
    ensures var b, decodes := a.payload.value, GetRelated(store, a.key).Some? ==>
                                                 RelIsA(GetRelated(store, a.key).value, concern);
            && (Succeeded(HandleLogic(concern, RequestRelated, a, store).outcome) <==>
                  && b.RelReq? && a.inst.Some? && decodes
                  && (concern == PLAYER ==> Tells(b, "Player", CHARACTER)))
            && (Succeeded(HandleLogic(concern, RefreshRelated, a, store).outcome) <==>
                  && b.RelRsp? && a.key in store && decodes
                  && if concern == PLAYER then Tells(b, "Characters", CHARACTER) else Tells(b, "Player", PLAYER))
  {
  }

  /** The cached record of a key as a payload. */
  function RecordAt(store: MStore, key: string): (r: Option<Bytes>)
    ensures r.Some? ==> r.value.Packed?
  {
    if key in store then Some(Packed(store[key].inst, store[key].rel)) else None
  }

  /** `y` is a PROCESS step as it reaches its handler, `inst` what comes with it. */
  predicate Delivered(w: World, y: MStep, inst: Option<Bytes>, off: CompoundOffset) {
    && y.system.Process? && IsConcern(y.concern) && y.result.None? && y.cmpdOffset == Some(off)
    && (inst.Some? ==> y.key in StoreOf(w, y.concern) && inst.value == Inst(StoreOf(w, y.concern)[y.key].inst))
  }

  lemma VisitDelivers(w: World, txn: MTxn, off: CompoundOffset, freshKey: string)
    requires InFlight(txn) && AdmitAt(w, txn, off).Admitted? && Current(txn).system.Process?
             && IsConcern(Current(txn).concern)
    ensures Delivered(w, Arrived(txn, off), AdmitAt(w, txn, off).inst, off)
            && Answered(w, txn, off, freshKey)
               == HandleCommand(w, Arrived(txn, off), AdmitAt(w, txn, off).inst, off, freshKey)
  {
    CurrentInFlight(txn);
    ArrivedShape(txn, off);
  }

  lemma StepLeaves(w: World, y: MStep, inst: Option<Bytes>, off: CompoundOffset, freshKey: string, held: MStore,
                   system: System, x: MStep, r: Result<Bytes>)
    requires Delivered(w, y, inst, off) && InOrder(StoreOf(w, y.concern), y.key, off)
    requires var a := HandleCommand(w, y, inst, off, freshKey); AnsweredOk(a) && a.outcome.result.value == r
    requires Leaves(Settle(y, r, inst), CodecOver(held)) && IsUpdateOf(x, system, Settle(y, r, inst), CodecOver(held))
    ensures var s := StoreOf(HandleCommand(w, y, inst, off, freshKey).state, x.concern);
            && x.system == system && x.concern == y.concern && x.command == UpdateAsync && x.result.None?
            && x.key == y.key && x.cmpdOffset == Some(off) && x.key in s
            && LeftOver(x, s[x.key], if r.instance.Some? then GetRelated(held, x.key) else s[x.key].rel)
  {
    var i := if inst.Some? && inst.value.Inst? then Some(inst.value.inst) else None;
    LeavesRecord(y.concern, y.command, LogicArgs(y.key, i, y.payload, off), StoreOf(w, y.concern));
  }

  /** What a PROCESS visit has left for an update, when its transaction completes in a consumer
      that caches `held`: the cached instance, with the cached related value unless the visit
      was that of a command; then it is the related value that `held` has. */
  lemma VisitLeaves(w: World, txn: MTxn, off: CompoundOffset, freshKey: string, held: MStore, system: System, x: MStep)
    requires InFlight(txn) && AdmitAt(w, txn, off).Admitted? && AnsweredOk(Answered(w, txn, off, freshKey))
    requires IsConcern(Current(txn).concern) && InOrder(StoreOf(w, Current(txn).concern), Arrived(txn, off).key, off)
    requires var st := SettledStep(w, txn, off, freshKey);
             Leaves(st, CodecOver(held)) && IsUpdateOf(x, system, st, CodecOver(held))
    ensures var s, st := StoreOf(Answered(w, txn, off, freshKey).state, x.concern), SettledStep(w, txn, off, freshKey);
            && x.system == system && x.concern == Current(txn).concern && x.command == UpdateAsync && x.result.None?
            && x.key == st.key && x.cmpdOffset == Some(off) && x.key in s
            && LeftOver(x, s[x.key], if st.result.value.instance.Some? then GetRelated(held, x.key) else s[x.key].rel)
  {
    VisitDelivers(w, txn, off, freshKey);
    StepLeaves(w, Arrived(txn, off), AdmitAt(w, txn, off).inst, off, freshKey, held, system, x,
               Answered(w, txn, off, freshKey).outcome.result.value);
  }

  /** The payload is the record's instance with this related value. */
  predicate LeftOver(x: MStep, rec: Rec<Instance, Related>, rel: Option<Related>) {
    && x.payload.Some? && x.payload.value.Packed? && x.payload.value.inst == rec.inst
    && Decoded(x.payload.value.rel, x.concern) == Decoded(rel, x.concern)
  }

  // ---------- the update is served ----------

  lemma UpdateAnswer(w: World, x: MStep, off: CompoundOffset, freshKey: string, i: Instance, rel: Option<Related>)
    requires IsStorageSystem(x.system) && x.command == UpdateAsync && x.cmpdOffset.Some?
             && Carries(x.payload, x.concern, i, rel)
    ensures var a := HandleCommand(w, x, None, off, freshKey);
            && AnsweredOk(a) && a.outcome.addSteps == [] && a.state == w.(db := a.state.db)
            && CellBecomes(w.db, a.state.db, x.concern, InstKey(i),
                           Some(Item(i, Some(Decoded(rel, x.concern)), x.cmpdOffset.value)), x.cmpdOffset.value)
  {
    UpdateStores(x.concern, x.system, x.command, CrudArgs(x.key, x.payload, x.cmpdOffset.value, freshKey), w.db, i,
                 rel);
  }

  /** An update with a key and an offset is let in by its consumer, completes, and stores what
      it carries at its own offset, unless the item has that offset or a greater one; nothing
      else changes. */
  lemma UpdateServed(w: World, id: string, parent: string, x: MStep, off: CompoundOffset, freshKey: string, i: Instance,
                     rel: Option<Related>)
    requires id != "" && IsStorageSystem(x.system) && x.command == UpdateAsync && x.result.None? && x.key != ""
             && x.cmpdOffset.Some? && Carries(x.payload, x.concern, i, rel)
    ensures InFlight(SpawnedTxn(id, parent, x))
    ensures var r := Serve(w, SpawnedTxn(id, parent, x), off, freshKey);
            && r.fate.Completed? && r.world == w.(db := r.world.db)
            && CellBecomes(w.db, r.world.db, x.concern, InstKey(i),
                           Some(Item(i, Some(Decoded(rel, x.concern)), x.cmpdOffset.value)), x.cmpdOffset.value)
  {
    var t := SpawnedTxn(id, parent, x);
    SpawnedAdmission(id, parent, x, off, Instances(StoreOf(w, x.concern)));
    UpdateAnswer(w, x, off, freshKey, i, rel);
    assert Answered(w, t, off, freshKey) == HandleCommand(w, x, None, off, freshKey);
    ServeAdmitted(w, t, off, freshKey);
  }

  // ---------- and comes back ----------

  /** A storage read brings the stored record to a cache that does not have it: it asks for a
      refresh, which puts it there. */
  lemma ReadServed(w: World, t: MTxn, off: CompoundOffset, freshKey: string, rec: Rec<Instance, Related>)
    requires InFlight(t) && Current(t).system.Storage? && Current(t).command.Read? && Current(t).cmpdOffset.Some?
             && Current(t).key != "" && IsConcern(Current(t).concern)
    requires Held(w.db, Current(t).concern, Current(t).key, rec)
    ensures var r := Serve(w, t, off, freshKey);
            && r.world == w && r.fate.Forwarded? && InFlight(r.fate.txn)
            && Current(r.fate.txn) == ProcessStep(Current(t).concern, RefreshInstance, Current(t).key,
                                                  Some(Packed(rec.inst, rec.rel)))
  {
    CurrentInFlight(t);
    ArrivedShape(t, off);
    RpgColdWarm.AnsweredIs(w, t, off, freshKey);
    RpgColdWarm.ReadAnswer(w, Arrived(t, off), off, freshKey, rec);
    ServeAdmitted(w, t, off, freshKey);
    var f := Serve(w, t, off, freshKey).fate;
    CurrentInFlight(f.txn);
  }

  lemma RefreshServed(w: World, t: MTxn, off: CompoundOffset, freshKey: string, rec: Rec<Instance, Related>)
    requires InFlight(t) && Current(t).system.Process? && Current(t).command.RefreshInstance?
             && Current(t).key != "" && IsConcern(Current(t).concern)
    requires Current(t).payload == Some(Packed(rec.inst, rec.rel)) && Fitting(rec, Current(t).concern)
    requires Current(t).key !in StoreOf(w, Current(t).concern)
    ensures var r := Serve(w, t, off, freshKey);
            && !r.fate.Failed?
            && r.world == WithStore(w, Current(t).concern, StoreOf(w, Current(t).concern)[Current(t).key :=
                                                             Rec(rec.inst, rec.rel, off)])
  {
    CurrentInFlight(t);
    ArrivedShape(t, off);
    RpgColdWarm.AnsweredIs(w, t, off, freshKey);
    RpgColdWarm.RefreshAnswer(w, Arrived(t, off), off, freshKey);
    ServeAdmitted(w, t, off, freshKey);
  }

  /** A record as caches hold it: of its concern, under its own key, related bytes of an empty
      value being none. */
  predicate KeptAs(rec: Rec<Instance, Related>, concern: string, key: string) {
    Fitting(rec, concern) && InstKey(rec.inst) == key && key != "" && PlainRel(rec.rel, concern)
  }

  predicate PlainRel(rel: Option<Related>, concern: string) {
    rel.Some? ==> RelIsA(rel.value, concern) && !IsEmptyRel(rel.value)
  }

  lemma DecodedPlain(a: Option<Related>, b: Option<Related>, concern: string)
    requires PlainRel(a, concern) && PlainRel(b, concern) && IsConcern(concern)
    ensures RelBytes(Decoded(a, concern)) == a && RelIsA(Decoded(a, concern), concern)
    ensures Decoded(a, concern) == Decoded(b, concern) <==> a == b
  {
  }

  /** The item is the record, as an update stores it. */
  predicate StoresRec(item: Option<MItem>, concern: string, rec: Rec<Instance, Related>, off: CompoundOffset) {
    item == Some(Item(rec.inst, Some(Decoded(rec.rel, concern)), off))
  }

  /** From a changed instance to the database: the update made of a PROCESS visit, served in any
      state in which the stored item is older, leaves the cached record of that visit there, at
      the visit's offset; for a command, with the related value of the consumer that completes
      the transaction. */
  lemma UpdateStoresRecord(w: World, txn: MTxn, off: CompoundOffset, freshKey: string, held: MStore, x: MStep,
                           w2: World, id: string, parent: string, off2: CompoundOffset, freshKey2: string)
    returns (rec: Rec<Instance, Related>)
    requires InFlight(txn) && AdmitAt(w, txn, off).Admitted? && AnsweredOk(Answered(w, txn, off, freshKey))
    requires IsConcern(Current(txn).concern) && InOrder(StoreOf(w, Current(txn).concern), Arrived(txn, off).key, off)
    requires var st := SettledStep(w, txn, off, freshKey);
             Leaves(st, CodecOver(held)) && IsUpdateOf(x, Storage, st, CodecOver(held))
    requires var s := StoreOf(Answered(w, txn, off, freshKey).state, x.concern);
             x.key in s ==> KeptAs(s[x.key], x.concern, x.key)
    requires PlainRel(GetRelated(held, x.key), x.concern) && id != "" && Takes(Lookup(w2.db, x.concern, x.key), off)
    ensures var s := StoreOf(Answered(w, txn, off, freshKey).state, x.concern);
            x.key in s && rec == if SettledStep(w, txn, off, freshKey).result.value.instance.Some?
                                 then s[x.key].(rel := GetRelated(held, x.key)) else s[x.key]
    ensures InRange(SpawnedTxn(id, parent, x))
    ensures StoresRec(Lookup(Serve(w2, SpawnedTxn(id, parent, x), off2, freshKey2).world.db, x.concern, x.key),
                      x.concern, rec, off)
  {
    VisitLeaves(w, txn, off, freshKey, held, Storage, x);
    var s := StoreOf(Answered(w, txn, off, freshKey).state, x.concern);
    rec := if SettledStep(w, txn, off, freshKey).result.value.instance.Some?
           then s[x.key].(rel := GetRelated(held, x.key)) else s[x.key];
    LeftIsStored(w2, x, rec, off, id, parent, off2, freshKey2);
  }

  lemma LeftIsStored(w2: World, x: MStep, rec: Rec<Instance, Related>, off: CompoundOffset, id: string, parent: string,
                     off2: CompoundOffset, freshKey2: string)
    requires x.system == Storage && x.command == UpdateAsync && x.result.None? && x.cmpdOffset == Some(off)
    requires IsConcern(x.concern) && KeptAs(rec, x.concern, x.key) && LeftOver(x, rec, rec.rel)
    requires id != "" && Takes(Lookup(w2.db, x.concern, x.key), off)
    ensures InRange(SpawnedTxn(id, parent, x))
    ensures StoresRec(Lookup(Serve(w2, SpawnedTxn(id, parent, x), off2, freshKey2).world.db, x.concern, x.key),
                      x.concern, rec, off)
  {
    UpdateServed(w2, id, parent, x, off2, freshKey2, rec.inst, x.payload.value.rel);
  }

  /** And back: a storage read for a cache that has lost the record, with the refresh it asks
      for, puts the stored record there. */
  lemma StoredComesBack(w: World, t: MTxn, off: CompoundOffset, freshKey: string, off2: CompoundOffset,
                        freshKey2: string, rec: Rec<Instance, Related>, at: CompoundOffset) returns (t2: MTxn)
    requires InFlight(t) && Current(t).system.Storage? && Current(t).command.Read? && Current(t).cmpdOffset.Some?
    requires var n, k := Current(t).concern, Current(t).key;
             IsConcern(n) && KeptAs(rec, n, k) && StoresRec(Lookup(w.db, n, k), n, rec, at) && k !in StoreOf(w, n)
    ensures Serve(w, t, off, freshKey) == Served(Forwarded(t2), w) && InRange(t2)
    ensures var n, k := Current(t).concern, Current(t).key;
            Serve(w, t2, off2, freshKey2).world == WithStore(w, n, StoreOf(w, n)[k := Rec(rec.inst, rec.rel, off2)])
  {
    DecodedPlain(rec.rel, rec.rel, Current(t).concern);
    ReadServed(w, t, off, freshKey, rec);
    t2 := Serve(w, t, off, freshKey).fate.txn;
    RefreshServed(w, t2, off2, freshKey2, rec);
  }

  /** The two together: once the update has been served, the record that a cold cache reads back
      has the instance that the cache held after the PROCESS visit, and its related value too
      exactly when, if the visit was that of a command, the consumer that completed the
      transaction had the same related bytes for the key. */
  lemma UpdateComesBack(w: World, txn: MTxn, off: CompoundOffset, freshKey: string, held: MStore, x: MStep, w2: World,
                        id: string, parent: string, off2: CompoundOffset, freshKey2: string, w4: World, t: MTxn,
                        off4: CompoundOffset, freshKey4: string, off5: CompoundOffset, freshKey5: string)
    returns (rec: Rec<Instance, Related>, t2: MTxn)
    requires InFlight(txn) && AdmitAt(w, txn, off).Admitted? && AnsweredOk(Answered(w, txn, off, freshKey))
    requires IsConcern(Current(txn).concern) && InOrder(StoreOf(w, Current(txn).concern), Arrived(txn, off).key, off)
    requires var st := SettledStep(w, txn, off, freshKey);
             Leaves(st, CodecOver(held)) && IsUpdateOf(x, Storage, st, CodecOver(held))
    requires var s := StoreOf(Answered(w, txn, off, freshKey).state, x.concern);
             x.key in s ==> KeptAs(s[x.key], x.concern, x.key)
    requires PlainRel(GetRelated(held, x.key), x.concern) && id != "" && Takes(Lookup(w2.db, x.concern, x.key), off)
    requires InRange(SpawnedTxn(id, parent, x))
             && Lookup(w4.db, x.concern, x.key)
                == Lookup(Serve(w2, SpawnedTxn(id, parent, x), off2, freshKey2).world.db, x.concern, x.key)
    requires InFlight(t) && Current(t).system.Storage? && Current(t).command.Read? && Current(t).cmpdOffset.Some?
    requires Current(t).concern == x.concern && Current(t).key == x.key && x.key !in StoreOf(w4, x.concern)
    ensures Serve(w4, t, off4, freshKey4) == Served(Forwarded(t2), w4) && InRange(t2)
    ensures Serve(w4, t2, off5, freshKey5).world ==
              WithStore(w4, x.concern, StoreOf(w4, x.concern)[x.key := Rec(rec.inst, rec.rel, off5)])
    ensures var s, st := StoreOf(Answered(w, txn, off, freshKey).state, x.concern), SettledStep(w, txn, off, freshKey);
            && x.key in s && rec.inst == s[x.key].inst
            && (rec.rel == s[x.key].rel <==>
                  (st.result.value.instance.Some? ==> GetRelated(held, x.key) == s[x.key].rel))
  {
    rec := UpdateStoresRecord(w, txn, off, freshKey, held, x, w2, id, parent, off2, freshKey2);
    t2 := StoredComesBack(w4, t, off4, freshKey4, off5, freshKey5, rec, off);
  }

  /** A linked character that is funded in a transaction that another partition's consumer
      completes: the update that is spawned has no player. */
  lemma LostRelated(off: CompoundOffset)
    ensures var c, p := Character("c1", "p1", "Bob", true, None), Player("p1", "alice", true, "");
            var fr := FundingRequest("c1", Some(Currency(1, 0, 0, 0)));
            var before: MStore := map["c1" := Rec(CharacterInst(c), Some(CharacterRel(Some(p))), off)];
            var y := Step(Process, CHARACTER, FUND, "c1", Some(Funding(fr)), None,
                          Some(off.(offset := off.offset + 1)), None);
            var a := HandleLogic(CHARACTER, FUND, LogicArgs("c1", Some(CharacterInst(c)), y.payload,
                                                            y.cmpdOffset.value), before);
            && Succeeded(a.outcome) && GetRelated(a.state, "c1") == Some(CharacterRel(Some(p)))
            && var st, rich := Settle(y, a.outcome.result.value, Some(Inst(CharacterInst(c)))),
                               CharacterInst(c.(currency := Some(Currency(1, 0, 0, 0))));
               && Leaves(st, CodecOver(map[])) && a.state["c1"].inst == rich
               && IsUpdateOf(Step(Storage, CHARACTER, UpdateAsync, "c1", Some(Packed(rich, None)), None, y.cmpdOffset,
                                  None), Storage, st, CodecOver(map[]))
  {
    assert Wrap(1) == 1 && Wrap(0) == 0;
  }

  // ---------- every spawned transaction is let in ----------

  /** Only commands report a changed instance, and storage writes name a key. */
  predicate WellAnswered(step: MStep) {
    step.result.Some? ==>
      && (step.system.Process? && step.result.value.instance.Some? ==> step.command.Platform?)
      && (step.system.Storage? && (step.command.Create? || (step.command.Delete? && step.key != "")) ==>
            step.result.value.key != "")
  }

  lemma HandlerAnswersWell(w: World, y: MStep, inst: Option<Bytes>, off: CompoundOffset, freshKey: string)
    requires AnsweredOk(HandleCommand(w, y, inst, off, freshKey)) && y.result.None?
    ensures WellAnswered(Settle(y, HandleCommand(w, y, inst, off, freshKey).outcome.result.value, inst))
  {
  }

  predicate AllWell(steps: seq<MStep>) { forall i :: 0 <= i < |steps| ==> WellAnswered(steps[i]) }

  /** The finished steps of what a visit sends on or completes. */
  function DoneOf(fate: Fate<Bytes>): seq<MStep>
    requires InRange(fate.txn)
  {
    if fate.Forwarded? then Finished(fate.txn) else fate.txn.forwardSteps
  }

  lemma ServeAnswersWell(w: World, txn: MTxn, off: CompoundOffset, freshKey: string)
    requires InFlight(txn) && AllWell(Finished(txn))
    ensures var f := Serve(w, txn, off, freshKey).fate; InRange(f.txn) && (!f.Failed? ==> AllWell(DoneOf(f)))
  {
    ServeLawful(w, txn, off, freshKey);
    var f := Serve(w, txn, off, freshKey).fate;
    if AdmitAt(w, txn, off).Missed? {
      ServeMissed(w, txn, off, freshKey);
    } else if AdmitAt(w, txn, off).Admitted? && AnsweredOk(Answered(w, txn, off, freshKey)) {
      ServeAdmitted(w, txn, off, freshKey);
      SettledWell(w, txn, off, freshKey);
    } else {
      ServeStops(w, txn, off, freshKey);
    }
  }

  lemma SettledWell(w: World, txn: MTxn, off: CompoundOffset, freshKey: string)
    requires InFlight(txn) && AdmitAt(w, txn, off).Admitted? && AnsweredOk(Answered(w, txn, off, freshKey))
    ensures WellAnswered(SettledStep(w, txn, off, freshKey))
  {
    CurrentInFlight(txn);
    ArrivedShape(txn, off);
    RpgColdWarm.AnsweredIs(w, txn, off, freshKey);
    HandlerAnswersWell(w, Arrived(txn, off), AdmitAt(w, txn, off).inst, off, freshKey);
  }

  /** A run of one transaction through consumers of the example game, in whatever worlds its
      messages find. */
  ghost predicate WorldRun(txns: seq<MTxn>, visits: seq<Visit<Bytes>>, ws: seq<World>, keys: seq<string>) {
    && |txns| == |visits| + 1 && |ws| == |keys| == |visits| && InFlight(txns[0]) && txns[0].currentStepIdx == 0
    && forall i :: 0 <= i < |visits| ==>
         && InRange(txns[i]) && visits[i] == VisitOf(ws[i], txns[i], visits[i].off, keys[i])
         && Serve(ws[i], txns[i], visits[i].off, keys[i]).fate == Forwarded(txns[i + 1])
  }

  lemma {:induction false} WorldRunWell(txns: seq<MTxn>, visits: seq<Visit<Bytes>>, ws: seq<World>, keys: seq<string>,
                                        j: nat)
    requires WorldRun(txns, visits, ws, keys) && j < |txns|
    ensures InFlight(txns[j]) && AllWell(Finished(txns[j]))
    ensures j < |visits| ==> FreshSteps(visits[j].outcome.addSteps)
    decreases j
  {
    if j > 0 {
      WorldRunWell(txns, visits, ws, keys, j - 1);
      var w, t, off, key := ws[j - 1], txns[j - 1], visits[j - 1].off, keys[j - 1];
      ServeLawful(w, t, off, key);
      ServeAnswersWell(w, t, off, key);
      assert Serve(w, t, off, key).fate == Forwarded(txns[j]);
    }
    if j < |visits| {
      HandlersKeepContract(ws[j], txns[j], visits[j].off, keys[j]);
    }
  }

  /** Every step that the completion of such a run spawns has an offset, and a key unless it
      copies an update of an instance without one. */
  lemma SpawnedAddressed(txns: seq<MTxn>, visits: seq<Visit<Bytes>>, ws: seq<World>, keys: seq<string>, w: World,
                         off: CompoundOffset, key: string, codec: Codec<Bytes>, order: seq<string>, names: set<string>)
    requires WorldRun(txns, visits, ws, keys) && InRange(txns[|visits|])
    requires forall i :: 0 <= i < |visits| ==> visits[i].topic.concern in names
    requires Current(txns[|visits|]).concern in names && forall n :: n in names ==> Topics.IsValidName(n)
    requires var f := Advance(txns[|visits|], VisitOf(w, txns[|visits|], off, key));
             f.Completed? && Enumerates(order, Updates(f.txn.forwardSteps, codec).Keys) && AllOk(f.txn.forwardSteps)
    ensures var f := Advance(txns[|visits|], VisitOf(w, txns[|visits|], off, key));
            forall x :: x in SpawnedSteps(f.txn.forwardSteps, codec, order) ==>
              && IsStorageSystem(x.system) && x.result.None? && x.cmpdOffset.Some?
              && (x.key != "" || (x.system == StorageScnd && x.command == Update))
  {
    var n := |visits|;
    WorldRunWell(txns, visits, ws, keys, n);
    forall i | 0 <= i < n
      ensures FreshSteps(visits[i].outcome.addSteps) && Advance(txns[i], visits[i]) == Forwarded(txns[i + 1])
    {
      WorldRunWell(txns, visits, ws, keys, i);
    }
    var v := VisitOf(w, txns[n], off, key);
    HandlersKeepContract(w, txns[n], off, key);
    RunFanout(txns, visits, v, codec, order, names, Current(txns[n]).concern, "");
    ServeAnswersWell(w, txns[n], off, key);
    var f := Advance(txns[n], v);
    assert Serve(w, txns[n], off, key).fate == f;
    FanoutAddressed(f.txn.forwardSteps, codec, SpawnedSteps(f.txn.forwardSteps, codec, order), |order|, names);
  }

  lemma FanoutAddressed(steps: seq<MStep>, codec: Codec<Bytes>, s: seq<MStep>, n: nat, names: set<string>)
    requires AllOk(steps) && AllWell(steps) && LetIn(steps, names) && CopiesThenUpdates(steps, codec, s, n)
    ensures forall x :: x in s ==>
              && IsStorageSystem(x.system) && x.result.None? && x.cmpdOffset.Some?
              && (x.key != "" || (x.system == StorageScnd && x.command == Update))
  {
    var copies := s[..|s| - 2 * n];
    var at :| WriteIndices(steps, at) && CopiesAt(steps, at, copies);
    forall m | 0 <= m < |s|
      ensures && IsStorageSystem(s[m].system) && s[m].result.None? && s[m].cmpdOffset.Some?
              && (s[m].key != "" || (s[m].system == StorageScnd && s[m].command == Update))
    {
      if m < |copies| {
        assert copies[m] == s[m] && at[m] in at;
        assert WellAnswered(steps[at[m]]);
      } else {
        assert MadeOfLast(steps, codec, s[m]);
        var i :| LastLeft(steps, codec, s[m].concern, s[m].key, i)
                 && (IsUpdateOf(s[m], Storage, steps[i], codec) || IsUpdateOf(s[m], StorageScnd, steps[i], codec));
        assert WellAnswered(steps[i]);
      }
    }
  }

  /** So each of these transactions, unless it copies such an update, is let in by whatever
      consumer gets it, whose handler sees the step as it was spawned. */
  lemma SpawnedLetIn(txns: seq<MTxn>, visits: seq<Visit<Bytes>>, ws: seq<World>, keys: seq<string>, w: World,
                     off: CompoundOffset, key: string, codec: Codec<Bytes>, order: seq<string>, names: set<string>,
                     x: MStep, id: string, w': World, off': CompoundOffset)
    requires WorldRun(txns, visits, ws, keys) && InRange(txns[|visits|])
    requires forall i :: 0 <= i < |visits| ==> visits[i].topic.concern in names
    requires Current(txns[|visits|]).concern in names && forall n :: n in names ==> Topics.IsValidName(n)
    requires var f := Advance(txns[|visits|], VisitOf(w, txns[|visits|], off, key));
             && f.Completed? && Enumerates(order, Updates(f.txn.forwardSteps, codec).Keys) && AllOk(f.txn.forwardSteps)
             && x in SpawnedSteps(f.txn.forwardSteps, codec, order)
    requires id != "" && (x.key == "" ==> x.system == Storage || x.command != Update)
    ensures var t := SpawnedTxn(id, txns[0].id, x);
            InFlight(t) && AdmitAt(w', t, off') == Admitted(None) && Arrived(t, off') == x
  {
    SpawnedAddressed(txns, visits, ws, keys, w, off, key, codec, order, names);
    SpawnedAdmission(id, txns[0].id, x, off', Instances(StoreOf(w', x.concern)));
  }
}
