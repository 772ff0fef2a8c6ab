/**
 What clients submit has the shapes the run of copies starts from; a creation that runs
 alone completes with the new character and its player linked, and a deletion with the
 instance gone from cache and database.
 */
module RpgCreation {
  import opened Wrappers
  import opened Offsets
  import opened ApecsTxns
  import opened ApecsRunners
  import opened ApecsInvariants
  import opened InstanceStores
  import opened RamDbs
  import opened Rpg
  import opened RpgWorlds
  import opened RpgCopies
  import opened RpgTermination
  import opened RpgCold
  import opened RpgColdRuns
  import opened RpgColdWarm

  /** Trades and fundings between named characters are commands on characters. */
  lemma WorkFits(id: string, target: Option<TopicTarget>, uponError: UponError, lhs: FundingRequest,
                 rhs: FundingRequest)
    requires id != "" && lhs.characterId != "" && rhs.characterId != ""
    ensures var trade := NewApecsTxn(id, None, target, uponError, TradeSteps(lhs, rhs));
            trade.Some? ==> InFlight(trade.value) && FitsWork(Pending(trade.value))
    ensures var fund := NewApecsTxn(id, None, target, uponError, FundSteps(lhs));
            fund.Some? ==> InFlight(fund.value) && FitsWork(Pending(fund.value))
  {
    var t, f := TradeSteps(lhs, rhs), FundSteps(lhs);
    NewTxnInFlight(id, None, target, uponError, t);
    NewTxnInFlight(id, None, target, uponError, f);
    ExpandCommands(t);
    ExpandCommands(f);
    var trade, fund := NewApecsTxn(id, None, target, uponError, t), NewApecsTxn(id, None, target, uponError, f);
    if trade.Some? { assert Pending(trade.value) == t; }
    if fund.Some? { assert Pending(fund.value) == f; }
  }

  lemma {:induction false} ExpandCommands(steps: seq<MStep>)
    requires forall i :: 0 <= i < |steps| ==> steps[i].command.Platform?
    ensures ExpandAll(steps) == steps
  {
    if steps != [] {
      ExpandCommands(steps[1..]);
      assert steps == [steps[0]] + steps[1..];
    }
  }

  /** A create becomes a validation and a storage step. */
  lemma CreateFits(id: string, target: Option<TopicTarget>, uponError: UponError, concern: string, i: Instance)
    requires id != "" && InstKey(i) == "" && IsA(i, concern)
    ensures var txn := NewApecsTxn(id, None, target, uponError, CreateSteps(concern, i));
            txn.Some? ==> InFlight(txn.value) && FitsNew(Pending(txn.value))
                          && Current(txn.value).payload == Some(Inst(i))
  {
    var steps := CreateSteps(concern, i);
    NewTxnInFlight(id, None, target, uponError, steps);
    assert steps[1..] == [] && ExpandAll(steps) == Expand(steps[0]);
    var txn := NewApecsTxn(id, None, target, uponError, steps);
    if txn.Some? {
      assert Pending(txn.value) == Expand(steps[0]);
    }
  }

  // ---------- a creation alone ----------

  /** The new character and its player know each other. */
  ghost predicate Linked(w: World, k: string, c: Character) {
    && LinkOf(w, k) == Some(c.playerId) && w.chars[k].inst == CharacterInst(c.(id := k))
    && c.(id := k) in ListOf(w, c.playerId)
  }

  function Created(db: MDb, k: string, c: Character, off: CompoundOffset): MDb {
    Write(db, CHARACTER, k, CharacterInst(c.(id := k)), None, off)
  }

  lemma LinkRun(w: World, txn: MTxn, feed: Feed, n: nat, c: Character)
    requires InFlight(txn) && DbKeyed(w.db) && FitsLink(w, Pending(txn))
             && InOrder(w.chars, Current(txn).key, OffAt(feed, txn, n))
    requires w.chars[Current(txn).key].inst == CharacterInst(c.(id := Current(txn).key))
             && Current(txn).payload.value.payload.inst.p.id == c.playerId
    ensures var e := RunAlone(w, txn, feed, n);
            e.fate.Completed? && Linked(e.world, Current(txn).key, c) && e.world.db == w.db
  {
    CurrentInFlight(txn);
    VisitLink(w, txn, OffAt(feed, txn, n), KeyAt(feed, txn));
    RunOne(w, txn, feed, n);
  }

  lemma AskRun(w: World, txn: MTxn, feed: Feed, n: nat, c: Character, k: string)
    requires InFlight(txn) && DbKeyed(w.db) && Stores(w) && FitsAsk(w, txn) && Increasing(feed)
             && c.playerId in w.players
    requires k == Current(txn).payload.value.key && k != "" && w.chars[k].inst == CharacterInst(c.(id := k))
    requires InOrder(w.players, c.playerId, feed.offs(PLAYER, c.playerId, n))
             && InOrder(w.chars, k, feed.offs(CHARACTER, k, n + 1))
    ensures var e := RunAlone(w, txn, feed, n); e.fate.Completed? && Linked(e.world, k, c) && e.world.db == w.db
  {
    CurrentInFlight(txn);
    var off, key := OffAt(feed, txn, n), KeyAt(feed, txn);
    AskLinks(w, txn, off, key, c, k);
    RunOne(w, txn, feed, n);
    var r := Serve(w, txn, off, key);
    CurrentInFlight(r.fate.txn);
    LinkRun(r.world, r.fate.txn, feed, n + 1, c);
  }

  lemma AskLinks(w: World, txn: MTxn, off: CompoundOffset, key: string, c: Character, k: string)
    requires InFlight(txn) && Stores(w) && FitsAsk(w, txn) && key != "" && c.playerId in w.players
             && InOrder(w.players, c.playerId, off)
    requires k == Current(txn).payload.value.key && k != "" && w.chars[k].inst == CharacterInst(c.(id := k))
    ensures var r := Serve(w, txn, off, key);
            && r.fate.Forwarded? && InFlight(r.fate.txn) && FitsLink(r.world, Pending(r.fate.txn))
            && r.world.chars == w.chars && r.world.db == w.db
            && Pending(r.fate.txn)[0].key == k && Pending(r.fate.txn)[0].payload.value.payload.inst.p.id == c.playerId
  {
    CurrentInFlight(txn);
    ArrivedShape(txn, off);
    assert PlayerOk(w.players[c.playerId], c.playerId);
    var d := c.(id := k);
    AskAnswer(w, Arrived(txn, off), d, off, key);
    ServeAdmitted(w, txn, off, key);
    AskDescends(w, txn, Serve(w, txn, off, key).fate, SettledStep(w, txn, off, key), off, d, key);
    var list := Upsert(ListOf(w, c.playerId), d);
    var add := [ProcessStep(CHARACTER, RefreshRelated, k,
                            Some(RelRsp(PLAYER, "Player", Packed(w.players[c.playerId].inst, Some(PlayerRel(list))))))];
    assert add + Pending(txn)[1..] == add;
  }

  lemma CacheRun(w: World, txn: MTxn, feed: Feed, n: nat, c: Character, k: string)
    requires InFlight(txn) && DbKeyed(w.db) && Stores(w) && FitsCache(w, Pending(txn)) && Increasing(feed)
             && c.playerId in w.players
    requires Current(txn) == Pending(txn)[0] && Current(txn).key == k
             && Current(txn).payload.value.inst == CharacterInst(c.(id := k))
    requires InOrder(w.players, c.playerId, feed.offs(PLAYER, c.playerId, n + 1))
    ensures var e := RunAlone(w, txn, feed, n); e.fate.Completed? && Linked(e.world, k, c) && e.world.db == w.db
  {
    var off, key := OffAt(feed, txn, n), KeyAt(feed, txn);
    VisitCache(w, txn, off, key);
    RunOne(w, txn, feed, n);
    var r := Serve(w, txn, off, key);
    CacheStores(w, k, c, off);
    CurrentInFlight(r.fate.txn);
    CacheAsks(w, txn, off, key, c, k);
    AskRun(r.world, r.fate.txn, feed, n + 1, c, k);
  }

  lemma CacheStores(w: World, k: string, c: Character, off: CompoundOffset)
    requires Stores(w) && k != ""
    ensures Stores(w.(chars := w.chars[k := Rec(CharacterInst(c.(id := k)), None, off)]))
  {
    var w' := w.(chars := w.chars[k := Rec(CharacterInst(c.(id := k)), None, off)]);
    forall j | j in w'.chars ensures CharacterOk(w'.chars[j], j, w'.players) {
      assert j in w.chars ==> CharacterOk(w.chars[j], j, w.players);
    }
  }

  lemma CacheAsks(w: World, txn: MTxn, off: CompoundOffset, key: string, c: Character, k: string)
    requires InFlight(txn) && FitsCache(w, Pending(txn)) && Current(txn) == Pending(txn)[0]
             && Current(txn).payload.value.inst == CharacterInst(c.(id := k))
    requires Current(txn).key == k
    ensures var r := Serve(w, txn, off, key);
            && r.fate.Forwarded? && InRange(r.fate.txn) && Current(r.fate.txn).payload.Some?
            && Current(r.fate.txn).payload.value.RelReq? && Current(r.fate.txn).payload.value.key == k
  {
    ArrivedShape(txn, off);
    CacheAnswer(w, Arrived(txn, off), off, key);
    ServeAdmitted(w, txn, off, key);
    var r := Serve(w, txn, off, key);
    assert [] + Pending(txn)[1..] == Pending(txn)[1..];
    CurrentInFlight(r.fate.txn);
  }

  lemma StoreRun(w: World, txn: MTxn, feed: Feed, n: nat, c: Character)
    requires InFlight(txn) && DbKeyed(w.db) && Stores(w) && FitsStore(Pending(txn)) && Increasing(feed)
             && c.playerId in w.players
    requires Current(txn).payload == Some(Inst(CharacterInst(c))) && KeyAt(feed, txn) !in w.chars
             && KeyAt(feed, txn) !in w.players
    requires InOrder(w.players, c.playerId, feed.offs(PLAYER, c.playerId, n + 2))
    ensures var e, k := RunAlone(w, txn, feed, n), KeyAt(feed, txn);
            && e.fate.Completed? && Linked(e.world, k, c)
            && e.world.db == Created(w.db, k, c, Current(txn).cmpdOffset.value)
  {
    var off, key := OffAt(feed, txn, n), KeyAt(feed, txn);
    CurrentInFlight(txn);
    VisitStore(w, txn, off, key);
    ServeKeepsKeyed(w, txn, off, key);
    RunOne(w, txn, feed, n);
    var r := Serve(w, txn, off, key);
    CurrentInFlight(r.fate.txn);
    StoreCaches(w, txn, off, key, c);
    CacheRun(r.world, r.fate.txn, feed, n + 1, c, key);
  }

  lemma StoreCaches(w: World, txn: MTxn, off: CompoundOffset, key: string, c: Character)
    requires InFlight(txn) && FitsStore(Pending(txn)) && Current(txn).payload == Some(Inst(CharacterInst(c)))
             && key != ""
    ensures var r := Serve(w, txn, off, key);
            r.fate.Forwarded? && InRange(r.fate.txn)
            && Current(r.fate.txn).payload == Some(Packed(CharacterInst(c.(id := key)), None))
  {
    CurrentInFlight(txn);
    ArrivedShape(txn, off);
    StoreAnswer(w, Arrived(txn, off), off, key);
    ServeAdmitted(w, txn, off, key);
    var r := Serve(w, txn, off, key);
    assert Pending(txn)[1..] == [];
    CurrentInFlight(r.fate.txn);
  }

  lemma NewStores(w: World, txn: MTxn, off: CompoundOffset, key: string, c: Character)
    requires InFlight(txn) && FitsNew(Pending(txn)) && key != "" && |c.fullname| >= 2
    requires Current(txn).payload == Pending(txn)[1].payload == Some(Inst(CharacterInst(c)))
             && Pending(txn)[1].cmpdOffset.None?
    ensures var r := Serve(w, txn, off, key);
            && r.world == w && r.fate.Forwarded? && InFlight(r.fate.txn) && FitsStore(Pending(r.fate.txn))
            && Current(r.fate.txn).payload == Some(Inst(CharacterInst(c)))
            && Creates(Finished(r.fate.txn)) == Creates(Finished(txn)) && Current(r.fate.txn).cmpdOffset == Some(off)
  {
    CurrentInFlight(txn);
    ArrivedShape(txn, off);
    VisitNew(w, txn, off, key);
    NewAnswer(w, Arrived(txn, off), off, key);
    ServeAdmitted(w, txn, off, key);
    NewNext(txn, Serve(w, txn, off, key).fate, SettledStep(w, txn, off, key), off);
    CreatesLast(Finished(txn), SettledStep(w, txn, off, key));
  }

  lemma NewNext(txn: MTxn, f: Fate<Bytes>, settled: MStep, off: CompoundOffset)
    requires SuccessOf(txn, f, settled, [], off) && f.Forwarded? && settled.cmpdOffset == Some(off)
    requires |Pending(txn)| == 2 && RpgColdRuns.IsCreate(Pending(txn)[1]) && Pending(txn)[1].cmpdOffset.None?
    ensures Current(f.txn).payload == Pending(txn)[1].payload && Current(f.txn).cmpdOffset == Some(off)
  {
    assert [] + Pending(txn)[1..] == Pending(txn)[1..];
    CurrentInFlight(f.txn);
  }

  /** CreateCharacter, alone, for a player that is cached: it completes, character and player
      know each other, and the character is stored at the offset of its validation, which was
      sent to some partition. */
  lemma CreationLinks(w: World, id: string, target: Option<TopicTarget>, uponError: UponError, c: Character, feed: Feed)
    requires id != "" && c.id == "" && |c.fullname| >= 2 && c.playerId in w.players && Stores(w) && DbKeyed(w.db)
    requires Increasing(feed) && Ahead(w, feed, 0) && feed.keys(0) !in w.chars && feed.keys(0) !in w.players
    ensures var txn := NewApecsTxn(id, None, target, uponError, CreateSteps(CHARACTER, CharacterInst(c)));
            txn.Some? ==>
              && InFlight(txn.value)
              && var e := RunAlone(w, txn.value, feed, 0);
                 && e.fate.Completed? && Linked(e.world, feed.keys(0), c)
                 && e.world.db == Created(w.db, feed.keys(0), c, feed.offs(CHARACTER, feed.routes(0), 0))
  {
    var steps := CreateSteps(CHARACTER, CharacterInst(c));
    CreateFits(id, target, uponError, CHARACTER, CharacterInst(c));
    var txn := NewApecsTxn(id, None, target, uponError, steps);
    if txn.Some? {
      var t := txn.value;
      assert steps[1..] == [] && ExpandAll(steps) == Expand(steps[0]);
      assert Pending(t) == Expand(steps[0]) && Finished(t) == [];
      var off, key := OffAt(feed, t, 0), KeyAt(feed, t);
      NewStores(w, t, off, key, c);
      RunOne(w, t, feed, 0);
      assert c.playerId in StoreOf(w, PLAYER);
      StoreRun(w, Serve(w, t, off, key).fate.txn, feed, 1, c);
    }
  }

  /** Whatever happens to the character later reaches the database only at offsets above that
      of its validation: writes and deletes of lower partitions, such as its own may be, leave
      it as it was created, for ever. */
  lemma CreatedStays(w: World, id: string, target: Option<TopicTarget>, uponError: UponError, c: Character, feed: Feed,
                     ops: seq<Op<Instance, Related>>)
    requires id != "" && c.id == "" && |c.fullname| >= 2 && c.playerId in w.players && Stores(w) && DbKeyed(w.db)
    requires Increasing(feed) && Ahead(w, feed, 0) && feed.keys(0) !in w.chars && feed.keys(0) !in w.players
             && Lookup(w.db, CHARACTER, feed.keys(0)).None?
    requires forall op :: op in ops && OnCell(op, CHARACTER, feed.keys(0)) ==>
                            LowerPartition(op.off, feed.offs(CHARACTER, feed.routes(0), 0))
    ensures var txn := NewApecsTxn(id, None, target, uponError, CreateSteps(CHARACTER, CharacterInst(c)));
            txn.Some? ==>
              && InFlight(txn.value)
              && var e, k := RunAlone(w, txn.value, feed, 0), feed.keys(0);
                 && e.fate.Completed? && Linked(e.world, k, c)
                 && Lookup(Run(e.world.db, ops), CHARACTER, k)
                    == Some(Item(CharacterInst(c.(id := k)), None, feed.offs(CHARACTER, feed.routes(0), 0)))
  {
    CreationLinks(w, id, target, uponError, c, feed);
    var k, off := feed.keys(0), feed.offs(CHARACTER, feed.routes(0), 0);
    WriteIs(w.db, CHARACTER, k, CharacterInst(c.(id := k)), off);
    LowerStays(Created(w.db, k, c, off), CHARACTER, k, ops);
  }

  // ---------- a deletion alone ----------

  lemma FlushRun(w: World, txn: MTxn, feed: Feed, n: nat)
    requires InFlight(txn) && DbKeyed(w.db) && |Pending(txn)| == 1
    requires Current(txn).system.Process? && Current(txn).command.FlushInstance? && Current(txn).key != ""
             && IsConcern(Current(txn).concern)
    ensures var e := RunAlone(w, txn, feed, n);
            e.fate.Completed? && e.world.db == w.db && Current(txn).key !in StoreOf(e.world, Current(txn).concern)
  {
    var off, key := OffAt(feed, txn, n), KeyAt(feed, txn);
    KeyedAdmission(w, txn, off);
    AnsweredIs(w, txn, off, key);
    FlushAnswer(w, Arrived(txn, off), off, key);
    ServeAdmitted(w, txn, off, key);
    RunOne(w, txn, feed, n);
    assert [] + Pending(txn)[1..] == [];
  }

  lemma FlushAnswer(w: World, step: MStep, off: CompoundOffset, key: string)
    requires step.system.Process? && step.command.FlushInstance? && IsConcern(step.concern)
    ensures var a := HandleCommand(w, step, None, off, key);
            AnsweredOk(a) && a.outcome.addSteps == [] && a.state.db == w.db
                && step.key !in StoreOf(a.state, step.concern)
  {
    WithStoreOf(w, step.concern, Remove(StoreOf(w, step.concern), step.key));
  }

  /** What a delete at this offset leaves of an item. */
  ghost predicate Gone(db: MDb, after: MDb, concern: string, k: string, off: CompoundOffset) {
    Lookup(after, concern, k) == if Passes(db, concern, k, off) then None else Lookup(db, concern, k)
  }

  lemma EraseRun(w: World, txn: MTxn, feed: Feed, n: nat)
    requires InFlight(txn) && DbKeyed(w.db) && |Pending(txn)| == 1 && KeyGiven(txn)
    requires Current(txn).system.Storage? && Current(txn).command.Delete? && Current(txn).key != ""
             && IsConcern(Current(txn).concern) && Current(txn).cmpdOffset.Some?
    ensures var e, n, k := RunAlone(w, txn, feed, n), Current(txn).concern, Current(txn).key;
            e.fate.Completed? && k !in StoreOf(e.world, n)
                && Gone(w.db, e.world.db, n, k, Current(txn).cmpdOffset.value)
  {
    var off, key := OffAt(feed, txn, n), KeyAt(feed, txn);
    CurrentInFlight(txn);
    KeyedAdmission(w, txn, off);
    AnsweredIs(w, txn, off, key);
    DeleteAnswers(w, Arrived(txn, off), off, key);
    ServeAdmitted(w, txn, off, key);
    ServeKeepsKeyed(w, txn, off, key);
    RunOne(w, txn, feed, n);
    EraseIs(w.db, Current(txn).concern, Current(txn).key, Current(txn).cmpdOffset.value);
    var r, add := Serve(w, txn, off, key), Answered(w, txn, off, key).outcome.addSteps;
    assert add + Pending(txn)[1..] == add;
    CurrentInFlight(r.fate.txn);
    FlushRun(r.world, r.fate.txn, feed, n + 1);
  }

  lemma DeleteStarts(w: World, step: MStep, inst: Option<Bytes>, off: CompoundOffset, key: string)
    requires step.system.Process? && step.command.Delete? && IsConcern(step.concern)
    ensures var a := HandleCommand(w, step, inst, off, key);
            && AnsweredOk(a) && a.state == w && a.outcome.result.value.key == ""
            && a.outcome.addSteps == [StorageStep(step.concern, Delete, step.key,
                                                  GetPacked(StoreOf(w, step.concern), step.key))]
  {
    assert WithStore(w, step.concern, StoreOf(w, step.concern)) == w;
  }

  /** A delete, alone, of a cached instance: it completes with the instance no longer cached.
      The stored item goes exactly when the message of the delete has the greater offset. */
  lemma DeletionForgets(w: World, id: string, target: Option<TopicTarget>, uponError: UponError, concern: string,
                        k: string, feed: Feed)
    requires id != "" && k != "" && IsConcern(concern) && k in StoreOf(w, concern) && DbKeyed(w.db)
    ensures var txn := NewApecsTxn(id, None, target, uponError, [UserStep(concern, Delete, k, None)]);
            txn.Some? ==>
              && InFlight(txn.value)
              && var e := RunAlone(w, txn.value, feed, 0);
                 && e.fate.Completed? && k !in StoreOf(e.world, concern)
                 && Gone(w.db, e.world.db, concern, k, feed.offs(concern, k, 0))
  {
    var steps := [UserStep(concern, Delete, k, None)];
    NewTxnInFlight(id, None, target, uponError, steps);
    assert steps[1..] == [] && ExpandAll(steps) == Expand(steps[0]);
    var txn := NewApecsTxn(id, None, target, uponError, steps);
    if txn.Some? {
      var t := txn.value;
      assert Pending(t) == steps;
      CurrentInFlight(t);
      DeleteRun(w, t, feed);
    }
  }

  lemma DeleteRun(w: World, t: MTxn, feed: Feed)
    requires InFlight(t) && |Pending(t)| == 1 && Current(t).system.Process? && Current(t).command.Delete?
             && Current(t).key != ""
    requires IsConcern(Current(t).concern) && Current(t).key in StoreOf(w, Current(t).concern) && DbKeyed(w.db)
    ensures var e, n, k := RunAlone(w, t, feed, 0), Current(t).concern, Current(t).key;
            && e.fate.Completed? && k !in StoreOf(e.world, n) && Gone(w.db, e.world.db, n, k, feed.offs(n, k, 0))
  {
    var off, key := OffAt(feed, t, 0), KeyAt(feed, t);
    CurrentInFlight(t);
    KeyedAdmission(w, t, off);
    AnsweredIs(w, t, off, key);
    DeleteStarts(w, Arrived(t, off), AdmitAt(w, t, off).inst, off, key);
    ServeAdmitted(w, t, off, key);
    RunOne(w, t, feed, 0);
    var r, add := Serve(w, t, off, key), Answered(w, t, off, key).outcome.addSteps;
    assert add + Pending(t)[1..] == add;
    CurrentInFlight(r.fate.txn);
    EraseRun(r.world, r.fate.txn, feed, 1);
  }
}
