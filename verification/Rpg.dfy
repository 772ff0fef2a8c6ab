/**
 The Character and Player concerns of the example game: their messages (examples/rpg/pb),
 their logic (examples/rpg/logic) and their generated handlers (character.rkcy.go, player.rkcy.go).

 Marshalled messages are values of `Bytes`; encoding and decoding one is taken to be a
 round trip, and decoding bytes of another message an error. Empty related bytes and none
 are the same thing, as they are to every reader in the code.
 */
module Rpg {
  import opened Wrappers
  import opened Offsets
  import opened ApecsTxns
  import opened ApecsRunners
  import opened InstanceStores
  import opened RamDbs

  const CHARACTER := "Character"
  const PLAYER := "Player"

  // ---------- messages ----------

  /** Four int32 amounts. */
  datatype Currency = Currency(gold: int, faction0: int, faction1: int, faction2: int)

  datatype Character = Character(id: string, playerId: string, fullname: string, active: bool,
                                 currency: Option<Currency>)

  datatype Player = Player(id: string, username: string, active: bool, limitsId: string)

  datatype Instance = CharacterInst(c: Character) | PlayerInst(p: Player)

  /** A player's related characters, or a character's related player. */
  datatype Related = CharacterRel(player: Option<Player>) | PlayerRel(characters: seq<Character>)

  datatype FundingRequest = FundingRequest(characterId: string, currency: Option<Currency>)

  datatype Bytes =
    | Inst(inst: Instance)
    | Packed(inst: Instance, rel: Option<Related>)
    | Funding(fr: FundingRequest)
    | RelReq(concern: string, key: string, field: string, payload: Bytes)
    | RelRsp(concern: string, field: string, payload: Bytes)

  type MStore = Store<Instance, Related>
  type MDb = Contents<Instance, Related>
  type MStep = Step<Bytes>
  type MTxn = Txn<Bytes>

  function InstKey(i: Instance): string { match i case CharacterInst(c) => c.id case PlayerInst(p) => p.id }

  function WithKey(i: Instance, key: string): Instance {
    match i case CharacterInst(c) => CharacterInst(c.(id := key)) case PlayerInst(p) => PlayerInst(p.(id := key))
  }

  predicate IsA(i: Instance, concern: string) {
    match i case CharacterInst(_) => concern == CHARACTER case PlayerInst(_) => concern == PLAYER
  }

  predicate RelIsA(r: Related, concern: string) {
    match r case CharacterRel(_) => concern == CHARACTER case PlayerRel(_) => concern == PLAYER
  }

  predicate IsEmptyRel(r: Related) { r == CharacterRel(None) || r == PlayerRel([]) }

  /** Marshalled related bytes. */
  function RelBytes(r: Related): Option<Related> { if IsEmptyRel(r) then None else Some(r) }

  function EmptyRel(concern: string): Related { if concern == CHARACTER then CharacterRel(None) else PlayerRel([]) }

  // ---------- int32 arithmetic ----------

  const TWO32 := 0x1_0000_0000
  const TWO31 := 0x8000_0000

  function Wrap(x: int): (r: int)
    ensures -TWO31 <= r < TWO31 && (r - x) % TWO32 == 0
  {
    (x + TWO31) % TWO32 - TWO31
  }

  function Plus(a: Currency, b: Currency): Currency {
    Currency(Wrap(a.gold + b.gold), Wrap(a.faction0 + b.faction0), Wrap(a.faction1 + b.faction1),
             Wrap(a.faction2 + b.faction2))
  }

  function Minus(a: Currency, b: Currency): Currency {
    Currency(Wrap(a.gold - b.gold), Wrap(a.faction0 - b.faction0), Wrap(a.faction1 - b.faction1),
             Wrap(a.faction2 - b.faction2))
  }

  const NO_FUNDS := Currency(0, 0, 0, 0)

  predicate Negative(c: Currency) { c.gold < 0 || c.faction0 < 0 || c.faction1 < 0 || c.faction2 < 0 }

  // ---------- logic (examples/rpg/logic) ----------

  /** `Panicked` is a nil dereference. */
  datatype Logic<T> = Done(value: T) | Refused(code: Code) | Panicked

  function Fund(c: Character, fr: FundingRequest): Logic<Character> {
    if fr.currency.None? then Panicked
    else if Negative(fr.currency.value) then Refused(InvalidArgument)
    else
      var had := if c.currency.Some? then c.currency.value else NO_FUNDS;
      Done(c.(currency := Some(Plus(had, fr.currency.value))))
  }

  /** The check compares all three factions with the first faction's balance. */
  function DebitFunds(c: Character, fr: FundingRequest): Logic<Character> {
    if fr.currency.None? then Panicked
    else if Negative(fr.currency.value) then Refused(InvalidArgument)
    else if c.currency.None? then Panicked
    else
      var have, amount := c.currency.value, fr.currency.value;
      if amount.gold > have.gold || amount.faction0 > have.faction0 || amount.faction1 > have.faction0
          || amount.faction2 > have.faction0
      then Refused(InvalidArgument)
      else Done(c.(currency := Some(Minus(have, amount))))
  }

  function CreditFunds(c: Character, fr: FundingRequest): Logic<Character> {
    if fr.currency.None? then Panicked
    else if Negative(fr.currency.value) then Refused(InvalidArgument)
    else if c.currency.None? then Panicked
    else Done(c.(currency := Some(Plus(c.currency.value, fr.currency.value))))
  }

  function ValidateCreateInst(i: Instance): Logic<Instance> {
    match i
    case CharacterInst(c) => if |c.fullname| < 2 then Refused(InvalidArgument) else Done(i)
    case PlayerInst(p) => if |p.username| < 4 then Refused(InvalidArgument) else Done(i)
  }

  function ValidateUpdateInst(was: Instance, now: Instance): Logic<Instance> {
    if InstKey(now) == "" || InstKey(was) != InstKey(now) then Refused(InvalidArgument)
    else if was.PlayerInst? && now.PlayerInst? && was.p.username != now.p.username then Refused(InvalidArgument)
    else ValidateCreateInst(now)
  }

  // ---------- step lists of transactions (examples/rpg/logic/txn/character.go) ----------

  function UserStep(concern: string, command: Command, key: string, payload: Option<Bytes>): MStep {
    Step(Process, concern, command, key, payload, None, None, None)
  }

  const FUND := Platform("Fund")
  const DEBIT_FUNDS := Platform("DebitFunds")
  const CREDIT_FUNDS := Platform("CreditFunds")

  function FundSteps(fr: FundingRequest): seq<MStep> {
    [UserStep(CHARACTER, FUND, fr.characterId, Some(Funding(fr)))]
  }

  function TradeSteps(lhs: FundingRequest, rhs: FundingRequest): seq<MStep> {
    [ UserStep(CHARACTER, DEBIT_FUNDS, lhs.characterId, Some(Funding(lhs))),
      UserStep(CHARACTER, DEBIT_FUNDS, rhs.characterId, Some(Funding(rhs))),
      UserStep(CHARACTER, CREDIT_FUNDS, lhs.characterId, Some(Funding(rhs))),
      UserStep(CHARACTER, CREDIT_FUNDS, rhs.characterId, Some(Funding(lhs))) ]
  }

  function CreateSteps(concern: string, i: Instance): seq<MStep> {
    [UserStep(concern, Create, "", Some(Inst(i)))]
  }

  // ---------- related handling ----------

  /** The index of a character in a player's list, or the length. */
  function IndexOfCharacter(list: seq<Character>, key: string): (i: nat)
    ensures i <= |list|
    ensures i < |list| ==> list[i].id == key
    ensures forall j :: 0 <= j < i ==> list[j].id != key
  {
    if list == [] || list[0].id == key then 0 else 1 + IndexOfCharacter(list[1..], key)
  }

  function Upsert(list: seq<Character>, c: Character): seq<Character> {
    var i := IndexOfCharacter(list, c.id);
    if i < |list| then list[i := c] else list + [c]
  }

  method UpsertRelatedCharacters(characters: seq<Character>, msg: Character) returns (r: seq<Character>)
    ensures r == Upsert(characters, msg)
  {
    var idx := -1;
    for i := 0 to |characters|
      invariant idx == -1 && i <= IndexOfCharacter(characters, msg.id)
    {
      if characters[i].id == msg.id {
        idx := i;
        break;
      }
    }
    if idx == -1 {
      r := characters + [msg];
    } else {
      r := characters[idx := msg];
    }
  }

  function ProcessStep(concern: string, command: Command, key: string, payload: Option<Bytes>): MStep {
    Step(Process, concern, command, key, payload, None, None, None)
  }

  /** What a new instance asks of the instances it names. */
  function RequestRelatedSteps(i: Instance): seq<MStep> {
    match i
    case CharacterInst(c) =>
      [ProcessStep(PLAYER, RequestRelated, c.playerId, Some(RelReq(CHARACTER, c.id, "Player", Packed(i, None))))]
    case PlayerInst(_) => []
  }

  function PlayerRefreshes(list: seq<Character>, payload: Bytes): seq<MStep> {
    if list == [] then []
    else [ProcessStep(CHARACTER, RefreshRelated, list[0].id,
                      Some(RelRsp(PLAYER, "Player", payload)))] + PlayerRefreshes(list[1..], payload)
  }

  /** What a changed instance tells the instances that hold a copy of it, followed by a read
      that keeps the result a payload of this concern. */
  function RefreshRelatedSteps(key: string, i: Instance, rel: Related, relBytes: Option<Related>): seq<MStep> {
    var payload := Packed(i, relBytes);
    match rel
    case CharacterRel(player) =>
      if player.None? then []
      else [ProcessStep(PLAYER, RefreshRelated, player.value.id, Some(RelRsp(CHARACTER, "Characters", payload))),
            ProcessStep(CHARACTER, Read, key, None)]
    case PlayerRel(list) =>
      if list == [] then [] else PlayerRefreshes(list, payload) + [ProcessStep(PLAYER, Read, key, None)]
  }

  function PayloadInst(b: Bytes): Option<Instance> {
    match b case Inst(i) => Some(i) case Packed(i, _) => Some(i) case _ => None
  }

  /** HandleRequestRelated and HandleRefreshRelated: the new related value, whether it
      counts as changed, or an error. */
  datatype RelChange = RelChange(rel: Related, changed: bool) | RelRefused

  function OnRequestRelated(rel: Related, concern: string, field: string, payload: Bytes): RelChange {
    match rel
    case CharacterRel(_) => RelChange(rel, false)
    case PlayerRel(list) =>
      if field != "Player" || concern != CHARACTER || !payload.Packed? || !payload.inst.CharacterInst? then RelRefused
      else RelChange(PlayerRel(Upsert(list, payload.inst.c)), true)
  }

  function OnRefreshRelated(rel: Related, concern: string, field: string, payload: Bytes): RelChange {
    match rel
    case CharacterRel(_) =>
      if field != "Player" || concern != PLAYER || !payload.Packed? || !payload.inst.PlayerInst? then RelRefused
      else RelChange(CharacterRel(Some(payload.inst.p)), true)
    case PlayerRel(list) =>
      if field != "Characters" || concern != CHARACTER || !payload.Packed?
          || !payload.inst.CharacterInst? then RelRefused
      else RelChange(PlayerRel(Upsert(list, payload.inst.c)), true)
  }

  // ---------- logic commands ----------

  datatype LogicArgs = LogicArgs(key: string, inst: Option<Instance>, payload: Option<Bytes>, off: CompoundOffset)

  datatype Answer<S> = Answer(outcome: Outcome<Bytes>, state: S)

  function OkResult(payload: Option<Bytes>): Result<Bytes> { Result(Ok, "", payload, None, None) }

  function Reply<S>(r: Result<Bytes>, add: seq<MStep>, state: S): Answer<S> { Answer(Outcome(Some(r), add), state) }

  function Refuse<S>(code: Code, state: S): Answer<S> {
    Answer(Outcome(Some(Result(code, "", None, None, None)), []), state)
  }

  function Panic<S>(state: S): Answer<S> { Answer(Outcome(None, []), state) }

  function GetPacked(store: MStore, key: string): Option<Bytes> {
    if key in store then Some(Packed(store[key].inst, store[key].rel)) else None
  }

  /** The related value of an instance, decoded; none if the bytes are of another concern. */
  function RelatedOf(store: MStore, key: string, concern: string): Option<Related> {
    var r := GetRelated(store, key);
    if r.None? then Some(EmptyRel(concern)) else if RelIsA(r.value, concern) then r else None
  }

  function RunCommand(name: string, c: Character, fr: FundingRequest): Logic<Character> {
    if name == "Fund" then Fund(c, fr)
    else if name == "DebitFunds" then DebitFunds(c, fr)
    else if name == "CreditFunds" then CreditFunds(c, fr)
    else Refused(Internal) // invalid process command
  }

  function HandlePlatform(concern: string, name: string, a: LogicArgs, store: MStore): Answer<MStore> {
    if concern != CHARACTER || a.inst.None? || !a.inst.value.CharacterInst? || a.payload.None?
        || !a.payload.value.Funding? then
      Refuse(Internal, store)
    else
      var was := a.inst.value.c;
      var now := RunCommand(name, was, a.payload.value.fr);
      if now.Panicked? then Panic(store)
      else if now.Refused? then Refuse(now.code, store)
      else
        var i := CharacterInst(now.value);
        if now.value == was then Reply(OkResult(Some(Inst(i))), [], store)
        else
          var rel := RelatedOf(store, a.key, concern);
          if rel.None? then Refuse(Internal, store)
          else Reply(OkResult(Some(Inst(i))).(instance := Some(Inst(i))),
                     RefreshRelatedSteps(a.key, i, rel.value, GetRelated(store, a.key)),
                     SetInstance(store, a.key, i, a.off))
  }

  function HandleRefreshInstance(concern: string, a: LogicArgs, store: MStore): Answer<MStore> {
    if a.payload.None? || PayloadInst(a.payload.value).None?
        || !IsA(PayloadInst(a.payload.value).value, concern) then Refuse(Internal, store)
    else
      var i := PayloadInst(a.payload.value).value;
      var given := if a.payload.value.Packed? then a.payload.value.rel else None;
      if given.Some? && !RelIsA(given.value, concern) then Refuse(Internal, store)
      else
        var relBytes := if given.Some? then given else GetRelated(store, a.key);
        var rel := if given.Some? then given.value else EmptyRel(concern);
        var add := if a.inst.Some? then RefreshRelatedSteps(a.key, i, rel, relBytes) else [];
        var s := Set(store, a.key, i, relBytes, a.off);
        Reply(OkResult(GetPacked(s, a.key)), add, s)
  }

  function HandleRelated(concern: string, command: Command, a: LogicArgs, store: MStore): Answer<MStore>
    requires command.RequestRelated? || command.RefreshRelated?
  {
    var rel := RelatedOf(store, a.key, concern);
    if a.payload.None? || rel.None? then Refuse(Internal, store)
    else if command.RequestRelated? then
      if !a.payload.value.RelReq? || a.inst.None? then Refuse(Internal, store)
      else
        var q := a.payload.value;
        var ch := OnRequestRelated(rel.value, q.concern, q.field, q.payload);
        if ch.RelRefused? || (ch.changed && a.key !in store) then Refuse(Internal, store)
        else
          var rsp := RelRsp(concern, q.field, Packed(a.inst.value, RelBytes(ch.rel)));
          Reply(OkResult(Some(rsp)), [ProcessStep(q.concern, RefreshRelated, q.key, Some(rsp))],
                if ch.changed then SetRelated(store, a.key, RelBytes(ch.rel), a.off) else store)
    else
      if !a.payload.value.RelRsp? then Refuse(Internal, store)
      else
        var q := a.payload.value;
        var ch := OnRefreshRelated(rel.value, q.concern, q.field, q.payload);
        if ch.RelRefused? || (ch.changed && a.key !in store) then Refuse(Internal, store)
        else
          var s := if ch.changed then SetRelated(store, a.key, RelBytes(ch.rel), a.off) else store;
          Reply(OkResult(GetPacked(s, a.key)), [], s)
  }

  function StorageStep(concern: string, command: Command, key: string, payload: Option<Bytes>): MStep {
    Step(Storage, concern, command, key, payload, None, None, None)
  }

  /** HandleLogicCommand of either concern, forward direction. */
  function HandleLogic(concern: string, command: Command, a: LogicArgs, store: MStore): Answer<MStore> {
    match command
    case Create => Refuse(Internal, store)
    case Read =>
      if a.inst.None? then Refuse(Internal, store)
      else Reply(OkResult(Some(Packed(a.inst.value, GetRelated(store, a.key)))), [], store)
    case Update =>
      if a.payload.None? || !a.payload.value.Inst? then Refuse(Internal, store)
      else Reply(OkResult(None),
                 [StorageStep(concern, Update, a.key, Some(Packed(a.payload.value.inst, GetRelated(store, a.key))))],
                 store)
    case Delete => Reply(OkResult(None), [StorageStep(concern, Delete, a.key, GetPacked(store, a.key))], store)
    case RefreshInstance => HandleRefreshInstance(concern, a, store)
    case FlushInstance => Reply(OkResult(GetPacked(store, a.key)), [], Remove(store, a.key))
    case ValidateCreate =>
      if a.payload.None? || !a.payload.value.Inst? || !IsA(a.payload.value.inst, concern) then Refuse(Internal, store)
      else
        var v := ValidateCreateInst(a.payload.value.inst);
        if v.Done? then Reply(OkResult(Some(Inst(v.value))), [], store) else Refuse(InvalidArgument, store)
    case ValidateUpdate =>
      if a.inst.None? || a.payload.None? || !a.payload.value.Inst?
          || !IsA(a.payload.value.inst, concern) then Refuse(Internal, store)
      else
        var v := ValidateUpdateInst(a.inst.value, a.payload.value.inst);
        if v.Done? then Reply(OkResult(Some(Inst(v.value))), [], store) else Refuse(InvalidArgument, store)
    case RequestRelated => HandleRelated(concern, command, a, store)
    case RefreshRelated => HandleRelated(concern, command, a, store)
    case Platform(name) => HandlePlatform(concern, name, a, store)
    case UpdateAsync => Refuse(Internal, store)
  }

  // ---------- storage commands ----------

  datatype CrudArgs = CrudArgs(key: string, payload: Option<Bytes>, off: CompoundOffset, freshKey: string)

  function ParsedRel(b: Bytes): Option<Related> { if b.Packed? then b.rel else None }

  /** HandleCrudCommand on a primary (STORAGE) or secondary (STORAGE_SCND) RamDb target. */
  function HandleCrud(concern: string, system: System, command: Command, a: CrudArgs, db: MDb): Answer<MDb> {
    if command.Create? || command.Update? || command.UpdateAsync? then
      if a.payload.None? || PayloadInst(a.payload.value).None?
          || !IsA(PayloadInst(a.payload.value).value, concern) then Refuse(Internal, db)
      else
        var given := PayloadInst(a.payload.value).value;
        var rel := ParsedRel(a.payload.value);
        if command.Create? then
          if system.StorageScnd? && InstKey(given) == "" then Refuse(Internal, db)
          else
            var i := if InstKey(given) == "" then WithKey(given, a.freshKey) else given;
            var db' := Write(db, concern, InstKey(i), i, None, a.off);
            if system.StorageScnd? then Reply(Result(Ok, InstKey(i), a.payload, None, None), [], db')
            else if InstKey(i) == "" then Refuse(Internal, Erase(db', concern, "",
                                                                 a.off)) // the attempt to take it back
            else
              var p := Packed(i, rel);
              Reply(Result(Ok, InstKey(i), Some(p), None, Some(a.off)),
                    [ProcessStep(concern, RefreshInstance, InstKey(i), Some(p))] + RequestRelatedSteps(i), db')
        else
          if rel.Some? && !RelIsA(rel.value, concern) then Refuse(Internal, db)
          else
            var db' := Write(db, concern, InstKey(given), given,
                             Some(if rel.Some? then rel.value else EmptyRel(concern)), a.off);
            if system.StorageScnd? || command.UpdateAsync? then Reply(OkResult(None), [], db')
            else
              var p := Packed(given, rel);
              Reply(Result(Ok, InstKey(given), Some(p), None, None),
                    [ProcessStep(concern, RefreshInstance, InstKey(given), Some(p))], db')
    else if command.Read? && system.Storage? then
      var item := Lookup(db, concern, a.key);
      if item.None? then Refuse(Internal, db)
      else if item.value.rel.None? then Panic(db) // an item created and never updated has no related value to assert
      else
        var i, r := item.value.inst, RelBytes(item.value.rel.value);
        var p := Packed(i, r);
        Reply(Result(Ok, InstKey(i), Some(p), None, Some(item.value.cmpdOffset)),
              [ProcessStep(concern, RefreshInstance, InstKey(i), Some(p))], db)
    else if command.Delete? then
      var db' := Erase(db, concern, a.key, a.off);
      Reply(Result(Ok, a.key, None, None, None),
            if system.StorageScnd? then [] else [ProcessStep(concern, FlushInstance, a.key, None)], db')
    else Refuse(Internal, db)
  }
}
