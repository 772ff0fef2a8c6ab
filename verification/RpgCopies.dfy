/**
 The copies that concerns keep of each other agree. A character names its player in its
 related value; the player keeps a list of its characters, each with a copy of the
 instance, which injected REQUEST_RELATED and REFRESH_RELATED steps maintain.

 Players and characters are created, and transactions of commands and reads run on
 characters, all at once: messages of different partitions overtake each other, trades fail
 or are cancelled half-way. This file gives the shapes a message can have on its way and
 what one visit does to each.
 */
module RpgCopies {
  import opened Wrappers
  import opened Offsets
  import opened ApecsTxns
  import opened ApecsRunners
  import opened InstanceStores
  import opened RamDbs
  import opened Rpg
  import opened RpgWorlds

  // ---------- stores ----------

  ghost predicate CharacterOk(rec: Rec<Instance, Related>, k: string, players: MStore) {
    && rec.inst.CharacterInst? && rec.inst.c.id == k
    && (rec.rel.None? || (rec.rel.value.CharacterRel? && rec.rel.value.player.Some?
                          && rec.rel.value.player.value.id in players))
  }

  predicate Distinct(list: seq<Character>) { forall i, j :: 0 <= i < j < |list| ==> list[i].id != list[j].id }

  ghost predicate PlayerOk(rec: Rec<Instance, Related>, k: string) {
    && rec.inst.PlayerInst? && rec.inst.p.id == k
    && (rec.rel.None? || (rec.rel.value.PlayerRel? && Distinct(rec.rel.value.characters)))
  }

  ghost predicate Stores(w: World) {
    && (forall k :: k in w.chars ==> k != "" && CharacterOk(w.chars[k], k, w.players))
    && (forall k :: k in w.players ==> k != "" && PlayerOk(w.players[k], k))
  }

  /** The player a cached character is linked to. */
  function LinkOf(w: World, k: string): Option<string> {
    if k in w.chars && w.chars[k].rel.Some? && w.chars[k].rel.value.CharacterRel? && w.chars[k].rel.value.player.Some?
    then Some(w.chars[k].rel.value.player.value.id) else None
  }

  /** The characters on a cached player's list. */
  function ListOf(w: World, pid: string): seq<Character> {
    if pid in w.players && w.players[pid].rel.Some? && w.players[pid].rel.value.PlayerRel?
    then w.players[pid].rel.value.characters else []
  }

  lemma UpsertOk(list: seq<Character>, c: Character)
    requires Distinct(list)
    ensures Distinct(Upsert(list, c)) && c in Upsert(list, c) && Upsert(list, c) != []
    ensures forall d: Character :: d.id != c.id ==> (d in Upsert(list, c) <==> d in list)
    ensures forall d: Character :: d.id == c.id && d in Upsert(list, c) ==> d == c
    ensures forall i :: 0 <= i < |list| ==> i < |Upsert(list, c)| && Upsert(list, c)[i] == if list[i].id == c.id then c
                                                                                           else list[i]
  {
    var i, u := IndexOfCharacter(list, c.id), Upsert(list, c);
    if i < |list| {
      assert u[i] == c;
      forall d: Character | d.id != c.id && d in list ensures d in u {
        var j :| 0 <= j < |list| && list[j] == d;
        assert u[j] == d;
      }
    } else {
      assert u[|list|] == c;
      forall d | d in list ensures d in u {
        var j :| 0 <= j < |list| && list[j] == d;
        assert u[j] == d;
      }
    }
  }

  // ---------- shapes of messages ----------

  predicate Tellers(steps: seq<MStep>) { forall i :: 0 <= i < |steps| ==> Teller(steps[i]) }

  predicate IsRefresh(step: MStep) {
    && step.system.Process? && step.concern == PLAYER && step.command.RefreshRelated? && step.key != ""
    && step.payload.Some? && step.payload.value.RelRsp?
    && step.payload.value.concern == CHARACTER && step.payload.value.field == "Characters"
    && step.payload.value.payload.Packed? && step.payload.value.payload.inst.CharacterInst?
  }

  /** The copy a refresh carries. */
  function Copy(step: MStep): Character
    requires IsRefresh(step)
  {
    step.payload.value.payload.inst.c
  }

  /** Commands and reads on characters. */
  predicate FitsWork(p: seq<MStep>) { p != [] && Tellers(p) }

  /** A changed character on the way to its player. */
  predicate FitsRefresh(w: World, p: seq<MStep>) {
    p != [] && IsRefresh(p[0]) && p[0].key in w.players && Tellers(p[1..])
  }

  /** A step that named something nobody has stored. */
  predicate FitsLost(w: World, p: seq<MStep>) {
    && p != [] && p[0].system.Storage? && p[0].command.Read? && p[0].key != ""
    && (p[0].concern == CHARACTER || p[0].concern == PLAYER) && Lookup(w.db, p[0].concern, p[0].key).None?
  }

  predicate IsCreate(step: MStep) {
    && (step.concern == CHARACTER || step.concern == PLAYER)
    && step.payload.Some? && step.payload.value.Inst? && IsA(step.payload.value.inst, step.concern)
    && InstKey(step.payload.value.inst) == "" && step.key == ""
  }

  /** A new instance before validation. */
  predicate FitsNew(p: seq<MStep>) {
    && |p| == 2 && IsCreate(p[0]) && p[0].system.Process? && p[0].command.ValidateCreate?
    && IsCreate(p[1]) && p[1].system.Storage? && p[1].command.Create? && p[1].concern == p[0].concern
  }

  /** A new instance before it is stored. */
  predicate FitsStore(p: seq<MStep>) {
    |p| == 1 && IsCreate(p[0]) && p[0].system.Storage? && p[0].command.Create? && p[0].cmpdOffset.Some?
  }

  predicate IsRequest(step: MStep, c: Character) {
    && step.system.Process? && step.concern == PLAYER && step.command.RequestRelated? && step.key == c.playerId
    && step.payload == Some(RelReq(CHARACTER, c.id, "Player", Packed(CharacterInst(c), None)))
  }

  /** A stored character before it is cached. */
  predicate FitsCache(w: World, p: seq<MStep>) {
    && |p| == 2 && p[0].system.Process? && p[0].concern == CHARACTER && p[0].command.RefreshInstance? && p[0].key != ""
    && p[0].payload.Some? && p[0].payload.value.Packed? && p[0].payload.value.inst.CharacterInst?
    && p[0].payload.value.rel.None?
    && p[0].payload.value.inst.c.id == p[0].key && p[0].key !in w.chars && IsRequest(p[1], p[0].payload.value.inst.c)
  }

  /** A cached character before its player knows it. */
  predicate FitsAsk(w: World, txn: MTxn)
    requires InRange(txn)
  {
    var p := Pending(txn);
    && |p| == 1 && p[0].payload.Some? && p[0].payload.value.RelReq? && p[0].payload.value.key in w.chars
    && var rec := w.chars[p[0].payload.value.key];
       && rec.inst.CharacterInst? && rec.rel.None? && IsRequest(p[0], rec.inst.c)
       && (p[0].key == "" ==> ResolveKey(txn).None?)
  }

  /** A character its player knows before it knows its player. */
  predicate FitsLink(w: World, p: seq<MStep>) {
    && |p| == 1 && ToCharacters(p[0]) && p[0].command.RefreshRelated? && p[0].key != ""
    && p[0].payload.Some? && p[0].payload.value.RelRsp? && p[0].payload.value.concern == PLAYER
    && p[0].payload.value.field == "Player"
    && p[0].payload.value.payload.Packed? && p[0].payload.value.payload.inst.PlayerInst?
    && p[0].key in w.chars && w.chars[p[0].key].rel.None? && w.chars[p[0].key].inst.CharacterInst?
    && var pid := p[0].payload.value.payload.inst.p.id;
       pid in w.players && w.chars[p[0].key].inst.c in ListOf(w, pid)
  }

  /** A stored player before it is cached. */
  predicate FitsCachePlayer(w: World, p: seq<MStep>) {
    && |p| == 1 && p[0].system.Process? && p[0].concern == PLAYER && p[0].command.RefreshInstance? && p[0].key != ""
    && p[0].payload.Some? && p[0].payload.value.Packed? && p[0].payload.value.inst.PlayerInst?
    && p[0].payload.value.rel.None?
    && p[0].payload.value.inst.p.id == p[0].key && p[0].key !in w.players
  }

  ghost predicate Fits(w: World, txn: MTxn) {
    && InFlight(txn)
    && var p := Pending(txn);
       || FitsWork(p) || FitsRefresh(w, p) || FitsLost(w, p) || FitsNew(p) || FitsStore(p)
       || FitsCache(w, p) || FitsAsk(w, txn) || FitsLink(w, p) || FitsCachePlayer(w, p)
  }

  // ---------- who names whom ----------

  /** The character a step is about, by its key or in what it carries. */
  predicate NamesCharacter(step: MStep, k: string) {
    || (step.concern == CHARACTER && step.key == k && k != "")
    || (step.command.RequestRelated? && step.payload.Some? && step.payload.value.RelReq? && step.payload.value.key == k)
    || (IsRefresh(step) && Copy(step).id == k)
  }

  predicate NamesPlayer(step: MStep, k: string) {
    || (step.concern == PLAYER && step.key == k && k != "")
    || (IsCreate(step) && (step.command.Create? || step.command.ValidateCreate?)
        && step.payload.value.inst.CharacterInst?
        && step.payload.value.inst.c.playerId == k)
  }

  predicate MentionsCharacter(txn: MTxn, k: string)
    requires InRange(txn)
  {
    exists i :: 0 <= i < |Pending(txn)| && NamesCharacter(Pending(txn)[i], k)
  }

  predicate MentionsPlayer(txn: MTxn, k: string)
    requires InRange(txn)
  {
    exists i :: 0 <= i < |Pending(txn)| && NamesPlayer(Pending(txn)[i], k)
  }

  /** The character under creation in a message, from the moment it has a key. */
  predicate Making(txn: MTxn, k: string)
    requires InRange(txn)
  {
    var step := Current(txn);
    || (ToCharacters(step) && (step.command.RefreshInstance? || step.command.RefreshRelated?) && step.key == k)
    || (step.command.RequestRelated? && step.payload.Some? && step.payload.value.RelReq? && step.payload.value.key == k)
  }

  predicate MakingPlayer(txn: MTxn, k: string)
    requires InRange(txn)
  {
    var step := Current(txn);
    step.system.Process? && step.concern == PLAYER && step.command.RefreshInstance? && step.key == k
  }

  /** `t` is what a visit made of `txn`: nothing new is named but the fresh key and players
      that are cached, and nothing new is under creation but the fresh key. */
  ghost predicate Descends(w: World, txn: MTxn, t: MTxn, made: string)
    requires InRange(txn) && InRange(t)
  {
    && (forall k :: MentionsCharacter(t, k) ==> k == made || MentionsCharacter(txn, k))
    && (forall k :: MentionsPlayer(t, k) ==> k == made || k in w.players || MentionsPlayer(txn, k))
    && (forall k :: Making(t, k) ==> k == made || Making(txn, k))
    && (forall k :: MakingPlayer(t, k) ==> k == made || MakingPlayer(txn, k))
  }

  /** What a successful visit leaves named was named by the rest of the message or by what
      the handler added. */
  lemma SuccessNames(txn: MTxn, fate: Fate<Bytes>, settled: MStep, add: seq<MStep>, off: CompoundOffset)
    requires SuccessOf(txn, fate, settled, add, off) && fate.Forwarded?
    ensures forall k :: MentionsCharacter(fate.txn, k) ==> MentionsCharacter(txn, k) || exists i ::
                                                             0 <= i < |add| && NamesCharacter(add[i], k)
    ensures forall k :: MentionsPlayer(fate.txn, k) ==> MentionsPlayer(txn, k) || exists i ::
                                                          0 <= i < |add| && NamesPlayer(add[i], k)
  {
    var p, q := Pending(txn), Pending(fate.txn);
    forall i | 0 <= i < |q|
      ensures if i < |add| then (forall k :: (NamesCharacter(q[i], k) ==> NamesCharacter(add[i], k))
                                             && (NamesPlayer(q[i], k) ==> NamesPlayer(add[i], k)))
              else (forall k :: (NamesCharacter(q[i], k) ==> NamesCharacter(p[1 + i - |add|], k))
                                && (NamesPlayer(q[i], k) ==> NamesPlayer(p[1 + i - |add|], k)))
    {
      var was := (add + p[1..])[i];
      assert was == if i < |add| then add[i] else p[1 + i - |add|];
      assert q[i] == was || q[i] == Inherit(was, settled, off);
    }
  }

  lemma DetourNames(txn: MTxn, t: MTxn, step: MStep, off: CompoundOffset)
    requires DetourOf(txn, t, step, off) && SameOrder(Current(txn), step) && step.key == Current(txn).key
             && step.key != ""
    ensures forall k :: MentionsCharacter(t, k) ==> MentionsCharacter(txn, k)
    ensures forall k :: MentionsPlayer(t, k) ==> MentionsPlayer(txn, k)
  {
    CurrentInFlight(txn);
    var p, q, n := Pending(txn), Pending(t), if step.command.Read? then 1 else 2;
    forall i | 0 <= i < |q|
      ensures var was := if i < n then p[0] else p[1 + i - n];
              forall k :: (NamesCharacter(q[i], k) ==> NamesCharacter(was, k))
                          && (NamesPlayer(q[i], k) ==> NamesPlayer(was, k))
    {
      if i >= n { assert q[i] == p[1 + i - n]; }
    }
  }

  // ---------- one visit to each shape ----------

  /** A message for something neither cached nor stored is sent to look for it. */
  lemma VisitMissed(w: World, txn: MTxn, off: CompoundOffset, freshKey: string)
    requires InFlight(txn) && AdmitAt(w, txn, off).Missed? && Current(txn).key != ""
    requires Current(txn).concern == CHARACTER || Current(txn).concern == PLAYER
    requires Lookup(w.db, Current(txn).concern, Current(txn).key).None?
    ensures var r := Serve(w, txn, off, freshKey);
            r.world == w && r.fate.Forwarded? && InFlight(r.fate.txn) && FitsLost(w, Pending(r.fate.txn))
                && Descends(w, txn, r.fate.txn, freshKey)
  {
    ServeMissed(w, txn, off, freshKey);
    ArrivedShape(txn, off);
    DetourDescends(w, txn, Serve(w, txn, off, freshKey).fate.txn, Arrived(txn, off), off, freshKey);
  }

  lemma DetourDescends(w: World, txn: MTxn, t: MTxn, step: MStep, off: CompoundOffset, made: string)
    requires DetourOf(txn, t, step, off) && SameOrder(Current(txn), step) && step.key == Current(txn).key
             && step.key != ""
    requires step.concern == CHARACTER || step.concern == PLAYER
    requires Lookup(w.db, step.concern, step.key).None?
    ensures FitsLost(w, Pending(t)) && Descends(w, txn, t, made)
  {
    DetourNames(txn, t, step, off);
    CurrentInFlight(t);
  }

  lemma VisitLost(w: World, txn: MTxn, off: CompoundOffset, freshKey: string)
    requires InFlight(txn) && FitsLost(w, Pending(txn)) && freshKey != ""
    ensures var r := Serve(w, txn, off, freshKey); r.world == w && !r.fate.Forwarded?
  {
    CurrentInFlight(txn);
    ServeStops(w, txn, off, freshKey);
  }

  lemma NewAnswer(w: World, step: MStep, off: CompoundOffset, freshKey: string)
    requires IsCreate(step) && step.system.Process? && step.command.ValidateCreate?
    ensures var a := HandleCommand(w, step, None, off, freshKey);
            (AnsweredOk(a) <==> ValidateCreateInst(step.payload.value.inst).Done?) && a.state == w
                && a.outcome.addSteps == []
  {
  }

  lemma VisitNew(w: World, txn: MTxn, off: CompoundOffset, freshKey: string)
    requires InFlight(txn) && FitsNew(Pending(txn)) && freshKey != ""
    ensures var r := Serve(w, txn, off, freshKey);
            && r.world == w && (r.fate.Forwarded? <==> ValidateCreateInst(Current(txn).payload.value.inst).Done?)
            && (r.fate.Forwarded? ==> InFlight(r.fate.txn) && FitsStore(Pending(r.fate.txn))
                                      && Descends(w, txn, r.fate.txn, freshKey))
  {
    CurrentInFlight(txn);
    ArrivedShape(txn, off);
    NewAnswer(w, Arrived(txn, off), off, freshKey);
    if ValidateCreateInst(Current(txn).payload.value.inst).Done? {
      ServeAdmitted(w, txn, off, freshKey);
      NewDescends(w, txn, Serve(w, txn, off, freshKey).fate, SettledStep(w, txn, off, freshKey), off, freshKey);
    } else {
      ServeStops(w, txn, off, freshKey);
    }
  }

  lemma NewDescends(w: World, txn: MTxn, fate: Fate<Bytes>, settled: MStep, off: CompoundOffset, made: string)
    requires SuccessOf(txn, fate, settled, [], off) && FitsNew(Pending(txn)) && settled.cmpdOffset.Some?
    ensures fate.Forwarded? && FitsStore(Pending(fate.txn)) && Descends(w, txn, fate.txn, made)
  {
    assert [] + Pending(txn)[1..] == Pending(txn)[1..];
    SuccessNames(txn, fate, settled, [], off);
    CurrentInFlight(fate.txn);
  }

  // storing

  lemma StoreAnswer(w: World, step: MStep, off: CompoundOffset, freshKey: string)
    requires FitsStore([step]) && freshKey != ""
    ensures var a, i := HandleCommand(w, step, None, off, freshKey), WithKey(step.payload.value.inst, freshKey);
            && AnsweredOk(a) && a.state == w.(db := Write(w.db, step.concern, freshKey, i, None, step.cmpdOffset.value))
            && a.outcome.addSteps == [ProcessStep(step.concern, RefreshInstance, freshKey,
                                                  Some(Packed(i, None)))] + RequestRelatedSteps(i)
  {
  }

  lemma StoreDescends(w: World, txn: MTxn, fate: Fate<Bytes>, settled: MStep, off: CompoundOffset, i: Instance,
                      made: string)
    requires InFlight(txn) && FitsStore(Pending(txn)) && i == WithKey(Current(txn).payload.value.inst, made)
             && made != ""
    requires SuccessOf(txn, fate, settled,
                       [ProcessStep(Current(txn).concern, RefreshInstance, made,
                                    Some(Packed(i, None)))] + RequestRelatedSteps(i), off)
    requires made !in w.chars && made !in w.players
    ensures fate.Forwarded? && Descends(w, txn, fate.txn, made)
    ensures if i.CharacterInst? then FitsCache(w, Pending(fate.txn)) else FitsCachePlayer(w, Pending(fate.txn))
    ensures Pending(fate.txn)[0].key == made
  {
    var add := [ProcessStep(Current(txn).concern, RefreshInstance, made,
                            Some(Packed(i, None)))] + RequestRelatedSteps(i);
    assert Pending(txn)[1..] == [] && add + [] == add;
    SuccessNames(txn, fate, settled, add, off);
    CurrentInFlight(fate.txn);
    CurrentInFlight(txn);
    if i.CharacterInst? {
      assert NamesPlayer(Pending(txn)[0], i.c.playerId);
    }
  }

  lemma VisitStore(w: World, txn: MTxn, off: CompoundOffset, freshKey: string)
    requires InFlight(txn) && FitsStore(Pending(txn)) && freshKey != "" && freshKey !in w.chars
             && freshKey !in w.players
    ensures var r, i := Serve(w, txn, off, freshKey), WithKey(Current(txn).payload.value.inst, freshKey);
            && r.fate.Forwarded? && InFlight(r.fate.txn) && Descends(w, txn, r.fate.txn, freshKey)
            && r.world == w.(db := Write(w.db, Current(txn).concern, freshKey, i, None, Current(txn).cmpdOffset.value))
            && (if i.CharacterInst? then FitsCache(w, Pending(r.fate.txn)) else FitsCachePlayer(w, Pending(r.fate.txn)))
            && Pending(r.fate.txn)[0].key == freshKey
  {
    CurrentInFlight(txn);
    ArrivedShape(txn, off);
    StoreAnswer(w, Arrived(txn, off), off, freshKey);
    ServeAdmitted(w, txn, off, freshKey);
    StoreDescends(w, txn, Serve(w, txn, off, freshKey).fate, SettledStep(w, txn, off, freshKey), off,
                  WithKey(Current(txn).payload.value.inst, freshKey), freshKey);
  }

  // caching

  lemma CacheAnswer(w: World, step: MStep, off: CompoundOffset, freshKey: string)
    requires step.system.Process? && step.command.RefreshInstance? && step.payload.Some? && step.payload.value.Packed?
             && step.payload.value.rel.None?
    requires (step.concern == CHARACTER || step.concern == PLAYER) && IsA(step.payload.value.inst, step.concern)
    requires step.key !in StoreOf(w, step.concern)
    ensures var a := HandleCommand(w, step, None, off, freshKey);
            && AnsweredOk(a) && a.outcome.addSteps == [] && a.outcome.result.value.key == ""
            && a.state == WithStore(w, step.concern, StoreOf(w,
                                                             step.concern)[step.key := Rec(step.payload.value.inst,
                                                                                           None, off)])
  {
  }

  lemma CacheDescends(w: World, txn: MTxn, fate: Fate<Bytes>, settled: MStep, off: CompoundOffset, made: string)
    requires SuccessOf(txn, fate, settled, [], off) && settled.result.value.key == "" && FitsCache(w, Pending(txn))
    ensures fate.Forwarded? && Descends(w, txn, fate.txn, made)
    ensures var k, i := Current(txn).key, Current(txn).payload.value.inst;
            FitsAsk(w.(chars := w.chars[k := Rec(i, None, off)]), fate.txn) && Making(txn, k) && Making(fate.txn, k)
  {
    assert [] + Pending(txn)[1..] == Pending(txn)[1..];
    SuccessNames(txn, fate, settled, [], off);
    CurrentInFlight(fate.txn);
    CurrentInFlight(txn);
    var n := fate.txn.currentStepIdx;
    assert Finished(fate.txn)[n - 1] == settled;
  }

  lemma VisitCache(w: World, txn: MTxn, off: CompoundOffset, freshKey: string)
    requires InFlight(txn) && FitsCache(w, Pending(txn))
    ensures var r, k := Serve(w, txn, off, freshKey), Current(txn).key;
            && r.world == w.(chars := w.chars[k := Rec(Current(txn).payload.value.inst, None, off)])
            && r.fate.Forwarded? && InFlight(r.fate.txn) && FitsAsk(r.world, r.fate.txn)
            && Descends(w, txn, r.fate.txn, freshKey)
  {
    CurrentInFlight(txn);
    ArrivedShape(txn, off);
    CacheAnswer(w, Arrived(txn, off), off, freshKey);
    ServeAdmitted(w, txn, off, freshKey);
    CacheDescends(w, txn, Serve(w, txn, off, freshKey).fate, SettledStep(w, txn, off, freshKey), off, freshKey);
  }

  lemma VisitCachePlayer(w: World, txn: MTxn, off: CompoundOffset, freshKey: string)
    requires InFlight(txn) && FitsCachePlayer(w, Pending(txn))
    ensures var r, k := Serve(w, txn, off, freshKey), Current(txn).key;
            r.world == w.(players := w.players[k := Rec(Current(txn).payload.value.inst, None, off)])
                && r.fate.Completed?
  {
    CurrentInFlight(txn);
    ArrivedShape(txn, off);
    CacheAnswer(w, Arrived(txn, off), off, freshKey);
    ServeAdmitted(w, txn, off, freshKey);
  }

  // linking

  lemma LinkAnswer(w: World, step: MStep, inst: Option<Bytes>, off: CompoundOffset, freshKey: string)
    requires FitsLink(w, [step]) && InOrder(w.chars, step.key, off)
    ensures var a := HandleCommand(w, step, inst, off, freshKey);
            && AnsweredOk(a) && a.outcome.addSteps == []
            && var rel := CharacterRel(Some(step.payload.value.payload.inst.p));
               a.state == w.(chars := w.chars[step.key := Rec(w.chars[step.key].inst, Some(rel), off)])
  {
  }

  lemma VisitLink(w: World, txn: MTxn, off: CompoundOffset, freshKey: string)
    requires InFlight(txn) && FitsLink(w, Pending(txn)) && InOrder(w.chars, Current(txn).key, off)
    ensures var r, k, p := Serve(w, txn, off, freshKey), Current(txn).key, Current(txn).payload.value.payload.inst.p;
            r.world == w.(chars := w.chars[k := Rec(w.chars[k].inst, Some(CharacterRel(Some(p))), off)])
                && r.fate.Completed?
  {
    CurrentInFlight(txn);
    ArrivedShape(txn, off);
    LinkAnswer(w, Arrived(txn, off), AdmitAt(w, txn, off).inst, off, freshKey);
    ServeAdmitted(w, txn, off, freshKey);
  }

  /** The step that has run has answered with `payload`. */
  predicate Answers(txn: MTxn, fate: Fate<Bytes>, payload: Bytes)
    requires InRange(txn)
  {
    && txn.currentStepIdx < |fate.txn.forwardSteps| && DoneOk(fate.txn.forwardSteps[txn.currentStepIdx])
    && fate.txn.forwardSteps[txn.currentStepIdx].result.value.payload == Some(payload)
  }

  lemma SettledAnswers(txn: MTxn, fate: Fate<Bytes>, settled: MStep, add: seq<MStep>, off: CompoundOffset,
                       payload: Bytes)
    requires SuccessOf(txn, fate, settled, add, off) && settled.result.value.payload == Some(payload)
    ensures Answers(txn, fate, payload)
  {
    var n := txn.currentStepIdx;
    assert fate.Forwarded? ==> Finished(fate.txn)[n] == settled;
  }

  // the player learns of a character

  function WithList(w: World, pid: string, list: seq<Character>, off: CompoundOffset): World
    requires pid in w.players
  {
    w.(players := w.players[pid := Rec(w.players[pid].inst, Some(PlayerRel(list)), off)])
  }

  lemma ListHas(w: World, pid: string, c: Character, off: CompoundOffset)
    requires Stores(w) && pid in w.players
    ensures var now := ListOf(WithList(w, pid, Upsert(ListOf(w, pid), c), off), pid); c in now && Distinct(now)
  {
    assert PlayerOk(w.players[pid], pid);
    UpsertOk(ListOf(w, pid), c);
  }

  lemma AskAnswer(w: World, step: MStep, c: Character, off: CompoundOffset, freshKey: string)
    requires Stores(w) && IsRequest(step, c) && step.key in w.players && InOrder(w.players, step.key, off)
    ensures var a, list := HandleCommand(w, step, Some(Inst(w.players[step.key].inst)), off,
                                         freshKey), Upsert(ListOf(w, step.key), c);
            && AnsweredOk(a) && a.state == WithList(w, step.key, list, off)
            && a.outcome.result.value.payload
               == Some(RelRsp(PLAYER, "Player", Packed(w.players[step.key].inst, Some(PlayerRel(list)))))
            && a.outcome.addSteps ==
                 [ProcessStep(CHARACTER, RefreshRelated, c.id,
                              Some(RelRsp(PLAYER, "Player", Packed(w.players[step.key].inst, Some(PlayerRel(list))))))]
  {
    assert PlayerOk(w.players[step.key], step.key);
    UpsertOk(ListOf(w, step.key), c);
    assert RelatedOf(w.players, step.key, PLAYER) == Some(PlayerRel(ListOf(w, step.key)));
  }

  lemma AskDescends(w: World, txn: MTxn, fate: Fate<Bytes>, settled: MStep, off: CompoundOffset, c: Character,
                    made: string)
    requires InFlight(txn) && Stores(w) && FitsAsk(w, txn) && c == w.chars[Current(txn).payload.value.key].inst.c
             && Current(txn).key in w.players
    requires c.id != ""
    requires var pid := Current(txn).key; var list := Upsert(ListOf(w, pid), c);
             SuccessOf(txn, fate, settled,
                       [ProcessStep(CHARACTER, RefreshRelated, c.id,
                                    Some(RelRsp(PLAYER, "Player",
                                                Packed(w.players[pid].inst, Some(PlayerRel(list))))))], off)
    ensures fate.Forwarded? && Descends(w, txn, fate.txn, made)
    ensures FitsLink(WithList(w, Current(txn).key, Upsert(ListOf(w, Current(txn).key), c), off), Pending(fate.txn))
  {
    var pid := Current(txn).key;
    var list := Upsert(ListOf(w, pid), c);
    var add := [ProcessStep(CHARACTER, RefreshRelated, c.id,
                            Some(RelRsp(PLAYER, "Player", Packed(w.players[pid].inst, Some(PlayerRel(list))))))];
    assert Pending(txn)[1..] == [] && add + [] == add;
    SuccessNames(txn, fate, settled, add, off);
    CurrentInFlight(fate.txn);
    CurrentInFlight(txn);
    assert PlayerOk(w.players[pid], pid);
    UpsertOk(ListOf(w, pid), c);
    assert NamesCharacter(Pending(txn)[0], c.id);
  }

  /** The player is not there, or its list gets the character and the character hears of it. */
  lemma VisitAsk(w: World, txn: MTxn, off: CompoundOffset, freshKey: string)
    requires InFlight(txn) && Stores(w) && FitsAsk(w, txn) && freshKey != "" && Current(txn).payload.value.key != ""
    requires InOrder(w.players, Current(txn).key, off)
    requires Current(txn).key !in w.players ==> Lookup(w.db, PLAYER, Current(txn).key).None?
    ensures var r, pid, c := Serve(w, txn, off,
                                   freshKey), Current(txn).key, w.chars[Current(txn).payload.value.key].inst.c;
            && (r.fate.Forwarded? ==> InFlight(r.fate.txn) && Descends(w, txn, r.fate.txn, freshKey))
            && if pid in w.players then
                 && r.fate.Forwarded? && r.world == WithList(w, pid, Upsert(ListOf(w, pid), c), off)
                 && FitsLink(r.world, Pending(r.fate.txn)) && c in ListOf(r.world, pid)
                 && Distinct(ListOf(r.world, pid))
                 && Answers(txn, r.fate, RelRsp(PLAYER, "Player", Packed(r.world.players[pid].inst,
                                                                         r.world.players[pid].rel)))
               else r.world == w && (r.fate.Forwarded? ==> FitsLost(w, Pending(r.fate.txn)))
  {
    CurrentInFlight(txn);
    ArrivedShape(txn, off);
    var pid, c := Current(txn).key, w.chars[Current(txn).payload.value.key].inst.c;
    if pid in w.players {
      AskAnswer(w, Arrived(txn, off), c, off, freshKey);
      ServeAdmitted(w, txn, off, freshKey);
      AskDescends(w, txn, Serve(w, txn, off, freshKey).fate, SettledStep(w, txn, off, freshKey), off, c, freshKey);
      SettledAnswers(txn, Serve(w, txn, off, freshKey).fate, SettledStep(w, txn, off, freshKey),
                     Answered(w, txn, off, freshKey).outcome.addSteps, off,
                     RelRsp(PLAYER, "Player", Packed(w.players[pid].inst, Some(PlayerRel(Upsert(ListOf(w, pid), c))))));
      ListHas(w, pid, c, off);
    } else if pid == "" {
      ServeStops(w, txn, off, freshKey);
    } else {
      VisitMissed(w, txn, off, freshKey);
    }
  }

  // the player hears of a change

  lemma RefreshAnswer(w: World, step: MStep, inst: Option<Bytes>, off: CompoundOffset, freshKey: string)
    requires Stores(w) && IsRefresh(step) && step.key in w.players && InOrder(w.players, step.key, off)
    ensures var a := HandleCommand(w, step, inst, off, freshKey);
            && AnsweredOk(a) && a.outcome.addSteps == []
            && a.state == WithList(w, step.key, Upsert(ListOf(w, step.key), Copy(step)), off)
            && a.outcome.result.value.payload == Some(Packed(a.state.players[step.key].inst,
                                                             a.state.players[step.key].rel))
  {
    assert PlayerOk(w.players[step.key], step.key);
    UpsertOk(ListOf(w, step.key), Copy(step));
    assert RelatedOf(w.players, step.key, PLAYER) == Some(PlayerRel(ListOf(w, step.key)));
  }

  /** A successful step that adds nothing leaves commands and reads behind. */
  lemma WorkDescends(w: World, txn: MTxn, fate: Fate<Bytes>, settled: MStep, off: CompoundOffset, made: string)
    requires SuccessOf(txn, fate, settled, [], off) && Tellers(Pending(txn)[1..])
    ensures fate.Forwarded? ==> FitsWork(Pending(fate.txn)) && Descends(w, txn, fate.txn, made)
  {
    if fate.Forwarded? {
      var rest := Pending(txn)[1..];
      assert [] + rest == rest;
      SuccessNames(txn, fate, settled, [], off);
      CurrentInFlight(fate.txn);
      assert Teller(rest[0]);
    }
  }

  lemma VisitRefresh(w: World, txn: MTxn, off: CompoundOffset, freshKey: string)
    requires InFlight(txn) && Stores(w) && FitsRefresh(w, Pending(txn)) && InOrder(w.players, Current(txn).key, off)
    ensures var r, pid := Serve(w, txn, off, freshKey), Current(txn).key;
            && IsRefresh(Current(txn)) && r.world == WithList(w, pid, Upsert(ListOf(w, pid), Copy(Current(txn))), off)
            && Copy(Current(txn)) in ListOf(r.world, pid) && Distinct(ListOf(r.world, pid))
            && Answers(txn, r.fate, Packed(r.world.players[pid].inst, r.world.players[pid].rel))
            && (r.fate.Forwarded? ==> InFlight(r.fate.txn) && FitsWork(Pending(r.fate.txn))
                                      && Descends(w, txn, r.fate.txn, freshKey))
  {
    CurrentInFlight(txn);
    ArrivedShape(txn, off);
    RefreshAnswer(w, Arrived(txn, off), AdmitAt(w, txn, off).inst, off, freshKey);
    ServeAdmitted(w, txn, off, freshKey);
    WorkDescends(w, txn, Serve(w, txn, off, freshKey).fate, SettledStep(w, txn, off, freshKey), off, freshKey);
    var pid, c := Current(txn).key, Copy(Current(txn));
    ListHas(w, pid, c, off);
    SettledAnswers(txn, Serve(w, txn, off, freshKey).fate, SettledStep(w, txn, off, freshKey), [], off,
                   Packed(w.players[pid].inst, Some(PlayerRel(Upsert(ListOf(w, pid), c)))));
  }

  // commands and reads

  /** A character changed; if it is linked, its player will hear of it. */
  ghost predicate Changed(w: World, a: Answer<World>, step: MStep, off: CompoundOffset) {
    && step.key in w.chars && step.key in a.state.chars && a.state.chars[step.key].inst.CharacterInst?
    && a.state == w.(chars := w.chars[step.key := Rec(a.state.chars[step.key].inst, w.chars[step.key].rel, off)])
    && a.state.chars[step.key].inst.c.id == step.key
    && a.outcome.addSteps ==
       match LinkOf(w, step.key)
       case None => []
       case Some(pid) =>
         [ ProcessStep(PLAYER, RefreshRelated, pid,
                       Some(RelRsp(CHARACTER, "Characters",
                                   Packed(a.state.chars[step.key].inst, w.chars[step.key].rel)))),
           ProcessStep(CHARACTER, Read, step.key, None) ]
  }

  lemma WorkAnswer(w: World, step: MStep, off: CompoundOffset, freshKey: string)
    requires Stores(w) && Teller(step) && step.key in w.chars && InOrder(w.chars, step.key, off)
    requires AnsweredOk(HandleCommand(w, step, Some(Inst(w.chars[step.key].inst)), off, freshKey))
    ensures var a := HandleCommand(w, step, Some(Inst(w.chars[step.key].inst)), off, freshKey);
            (a.state == w && a.outcome.addSteps == []) || Changed(w, a, step, off)
  {
    assert CharacterOk(w.chars[step.key], step.key, w.players);
  }

  lemma ChangedDescends(w: World, txn: MTxn, fate: Fate<Bytes>, settled: MStep, a: Answer<World>, off: CompoundOffset,
                        pid: string, made: string)
    requires InFlight(txn) && Stores(w) && FitsWork(Pending(txn)) && Changed(w, a, Current(txn), off)
             && LinkOf(w, Current(txn).key) == Some(pid)
    requires SuccessOf(txn, fate, settled, a.outcome.addSteps, off)
    ensures fate.Forwarded? && Descends(w, txn, fate.txn, made) && FitsRefresh(w, Pending(fate.txn))
    ensures Pending(fate.txn)[0].key == pid && Copy(Pending(fate.txn)[0]) == a.state.chars[Current(txn).key].inst.c
  {
    CurrentInFlight(txn);
    var k, rest, add := Current(txn).key, Pending(txn)[1..], a.outcome.addSteps;
    assert CharacterOk(w.chars[k], k, w.players);
    SuccessNames(txn, fate, settled, add, off);
    CurrentInFlight(fate.txn);
    assert NamesCharacter(Pending(txn)[0], k);
    var q := Pending(fate.txn);
    assert q[1..] == [add[1]] + rest;
    TellersBehind(add[1], Pending(txn));
  }

  lemma TellersBehind(step: MStep, p: seq<MStep>)
    requires Teller(step) && p != [] && Tellers(p)
    ensures Tellers([step] + p[1..])
  {
    var q := [step] + p[1..];
    forall i | 0 <= i < |q| ensures Teller(q[i]) {
      if i > 0 { assert q[i] == p[i]; }
    }
  }

  /** What a visit does to a message of commands and reads. */
  ghost predicate WorkDone(w: World, txn: MTxn, off: CompoundOffset, r: Served, made: string)
    requires InRange(txn)
  {
    var k := Current(txn).key;
    && (r.fate.Forwarded? ==> InFlight(r.fate.txn) && Descends(w, txn, r.fate.txn, made))
    && (|| (r.world == w && (r.fate.Forwarded? ==> FitsLost(w, Pending(r.fate.txn)) || FitsWork(Pending(r.fate.txn))))
        || (&& k in w.chars && k in r.world.chars && r.world.chars[k].inst.CharacterInst?
            && r.world.chars[k].inst.c.id == k
            && r.world == w.(chars := w.chars[k := Rec(r.world.chars[k].inst, w.chars[k].rel, off)])
            && match LinkOf(w, k)
               case None => r.fate.Forwarded? ==> FitsWork(Pending(r.fate.txn))
               case Some(pid) =>
                 && r.fate.Forwarded? && FitsRefresh(w, Pending(r.fate.txn))
                 && Pending(r.fate.txn)[0].key == pid && Copy(Pending(r.fate.txn)[0]) == r.world.chars[k].inst.c))
  }

  lemma WorkSucceeds(w: World, txn: MTxn, off: CompoundOffset, a: Answer<World>, settled: MStep, r: Served,
                     made: string)
    requires InFlight(txn) && Stores(w) && FitsWork(Pending(txn))
    requires r.world == a.state && SuccessOf(txn, r.fate, settled, a.outcome.addSteps, off)
    requires (a.state == w && a.outcome.addSteps == []) || Changed(w, a, Current(txn), off)
    ensures WorkDone(w, txn, off, r, made)
  {
    if a.outcome.addSteps == [] {
      WorkDescends(w, txn, r.fate, settled, off, made);
    } else {
      ChangedDescends(w, txn, r.fate, settled, a, off, LinkOf(w, Current(txn).key).value, made);
    }
  }

  lemma VisitWork(w: World, txn: MTxn, off: CompoundOffset, freshKey: string)
    requires InFlight(txn) && Stores(w) && FitsWork(Pending(txn)) && freshKey != ""
             && InOrder(w.chars, Current(txn).key, off)
    requires Current(txn).key !in w.chars ==> Lookup(w.db, CHARACTER, Current(txn).key).None?
    ensures WorkDone(w, txn, off, Serve(w, txn, off, freshKey), freshKey)
  {
    CurrentInFlight(txn);
    ArrivedShape(txn, off);
    assert Teller(Current(txn));
    if Current(txn).key !in w.chars {
      VisitMissed(w, txn, off, freshKey);
    } else if !AnsweredOk(Answered(w, txn, off, freshKey)) {
      ServeStops(w, txn, off, freshKey);
    } else {
      WorkAnswer(w, Arrived(txn, off), off, freshKey);
      ServeAdmitted(w, txn, off, freshKey);
      WorkSucceeds(w, txn, off, Answered(w, txn, off, freshKey), SettledStep(w, txn, off, freshKey),
                   Serve(w, txn, off, freshKey), freshKey);
    }
  }
}
