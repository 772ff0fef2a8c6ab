/**
 A cold cache equals a warm cache, step by step: the relation between a run whose caches
 have lost records and a run whose caches have not, and what the handlers make of it.
 */
module RpgCold {
  import opened Wrappers
  import opened Offsets
  import opened ApecsTxns
  import opened ApecsRunners
  import opened InstanceStores
  import opened RamDbs
  import opened Rpg
  import opened RpgWorlds

  // ---------- worlds ----------

  predicate SameRec(a: Rec<Instance, Related>, b: Rec<Instance, Related>) { a.inst == b.inst && a.rel == b.rel }

  /** Two offsets in the same partition. */
  predicate SameLine(a: CompoundOffset, b: CompoundOffset) {
    a.generation == b.generation && a.partition == b.partition
  }

  /** In the same partition, `x` comes after `o`. */
  predicate Newer(x: CompoundOffset, o: CompoundOffset) { SameLine(x, o) ==> x.offset > o.offset }

  ghost predicate Newest(db: MDb, concern: string, off: CompoundOffset) {
    forall k :: Lookup(db, concern, k).Some? ==> Newer(off, Lookup(db, concern, k).value.cmpdOffset)
  }

  /** Both hold the same values, written at offsets of the same partitions. */
  ghost predicate SameDb(c: MDb, h: MDb) {
    forall n, k :: (Lookup(c, n, k).Some? <==> Lookup(h, n, k).Some?)
                   && (Lookup(c, n, k).Some? ==> SameItem(Lookup(c, n, k).value, Lookup(h, n, k).value))
  }

  predicate SameItem(a: Item<Instance, Related>, b: Item<Instance, Related>) {
    a.inst == b.inst && a.rel == b.rel && SameLine(a.cmpdOffset, b.cmpdOffset)
  }

  /** The database holds the same instance and related value as the record. */
  ghost predicate Held(db: MDb, concern: string, k: string, rec: Rec<Instance, Related>) {
    && Lookup(db, concern, k).Some?
    && var item := Lookup(db, concern, k).value;
       && item.inst == rec.inst && InstKey(item.inst) == k && k != ""
       && item.rel.Some? && RelBytes(item.rel.value) == rec.rel
  }

  /** A record of this concern. */
  predicate Fitting(rec: Rec<Instance, Related>, concern: string) {
    IsA(rec.inst, concern) && (rec.rel.Some? ==> RelIsA(rec.rel.value, concern))
  }

  ghost predicate StoredAs(db: MDb, concern: string, k: string, rec: Rec<Instance, Related>) {
    Held(db, concern, k, rec) && Fitting(rec, concern)
  }

  /** An item that was created and never updated: no related value is stored with it. */
  predicate Bare(db: MDb, concern: string, k: string) {
    Lookup(db, concern, k).Some? && Lookup(db, concern, k).value.rel.None?
  }

  /** Concerns and keys. */
  type Bares = iset<(string, string)>

  /** A record that only the warm cache has is stored with the same value, or bare. */
  ghost predicate Kept(bare: Bares, db: MDb, concern: string, k: string, rec: Rec<Instance, Related>) {
    StoredAs(db, concern, k, rec) || ((concern, k) in bare && Bare(db, concern, k))
  }

  /** What is cached cold is cached warm with the same value; what is only cached warm is
      stored, with the same value but for items in `bare`. */
  ghost predicate ColdStore(bare: Bares, c: MStore, h: MStore, db: MDb, concern: string) {
    && (forall k :: k in c ==> k in h && SameRec(c[k], h[k]))
    && (forall k :: k in h && k !in c ==> Kept(bare, db, concern, k, h[k]))
  }

  ghost predicate Alike(bare: Bares, c: World, h: World) {
    && SameDb(c.db, h.db)
    && ColdStore(bare, c.chars, h.chars, c.db, CHARACTER) && ColdStore(bare, c.players, h.players, c.db, PLAYER)
    && "" !in h.chars && "" !in h.players
  }

  // ---------- what handlers do in both ----------

  /** Only the record of `key` differs between two states of a store. */
  ghost predicate OnlyAt(s: MStore, t: MStore, key: string, off: CompoundOffset) {
    && (forall j :: j != key ==> (j in s <==> j in t) && (j in s ==> s[j] == t[j]))
    && (key in t ==> (key in s && t[key] == s[key]) || t[key].cmpdOffset == off)
  }

  predicate SameAt(c: MStore, h: MStore, key: string) {
    (key in c <==> key in h) && (key in c ==> SameRec(c[key], h[key]))
  }

  /** The handlers depend on the cache only through the record of the step's key. */
  lemma LogicAgrees(concern: string, command: Command, ac: LogicArgs, ah: LogicArgs, c: MStore, h: MStore)
    requires ac.key == ah.key && ac.inst == ah.inst && ac.payload == ah.payload && SameAt(c, h, ac.key)
    requires InOrder(c, ac.key, ac.off) && InOrder(h, ah.key, ah.off)
    ensures var rc, rh := HandleLogic(concern, command, ac, c), HandleLogic(concern, command, ah, h);
            && rc.outcome == rh.outcome && SameAt(rc.state, rh.state, ac.key)
            && OnlyAt(c, rc.state, ac.key, ac.off) && OnlyAt(h, rh.state, ah.key, ah.off)
  {
    match command
    case Platform(name) => PlatformAgrees(concern, name, ac, ah, c, h);
    case RefreshInstance => RefreshAgrees(concern, ac, ah, c, h);
    case RequestRelated => RelatedAgrees(concern, command, ac, ah, c, h);
    case RefreshRelated => RelatedAgrees(concern, command, ac, ah, c, h);
    case _ =>
  }

  lemma PlatformAgrees(concern: string, name: string, ac: LogicArgs, ah: LogicArgs, c: MStore, h: MStore)
    requires ac.key == ah.key && ac.inst == ah.inst && ac.payload == ah.payload && SameAt(c, h, ac.key)
    requires InOrder(c, ac.key, ac.off) && InOrder(h, ah.key, ah.off)
    ensures var rc, rh := HandlePlatform(concern, name, ac, c), HandlePlatform(concern, name, ah, h);
            && rc.outcome == rh.outcome && SameAt(rc.state, rh.state, ac.key)
            && OnlyAt(c, rc.state, ac.key, ac.off) && OnlyAt(h, rh.state, ah.key, ah.off)
  {
    assert GetRelated(c, ac.key) == GetRelated(h, ah.key);
    assert RelatedOf(c, ac.key, concern) == RelatedOf(h, ah.key, concern);
  }

  lemma RefreshAgrees(concern: string, ac: LogicArgs, ah: LogicArgs, c: MStore, h: MStore)
    requires ac.key == ah.key && ac.inst == ah.inst && ac.payload == ah.payload && SameAt(c, h, ac.key)
    requires InOrder(c, ac.key, ac.off) && InOrder(h, ah.key, ah.off)
    ensures var rc, rh := HandleRefreshInstance(concern, ac, c), HandleRefreshInstance(concern, ah, h);
            && rc.outcome == rh.outcome && SameAt(rc.state, rh.state, ac.key)
            && OnlyAt(c, rc.state, ac.key, ac.off) && OnlyAt(h, rh.state, ah.key, ah.off)
  {
  }

  lemma RelatedAgrees(concern: string, command: Command, ac: LogicArgs, ah: LogicArgs, c: MStore, h: MStore)
    requires command.RequestRelated? || command.RefreshRelated?
    requires ac.key == ah.key && ac.inst == ah.inst && ac.payload == ah.payload && SameAt(c, h, ac.key)
    requires InOrder(c, ac.key, ac.off) && InOrder(h, ah.key, ah.off)
    ensures var rc, rh := HandleRelated(concern, command, ac, c), HandleRelated(concern, command, ah, h);
            && rc.outcome == rh.outcome && SameAt(rc.state, rh.state, ac.key)
            && OnlyAt(c, rc.state, ac.key, ac.off) && OnlyAt(h, rh.state, ah.key, ah.off)
  {
    assert GetRelated(c, ac.key) == GetRelated(h, ah.key);
    assert RelatedOf(c, ac.key, concern) == RelatedOf(h, ah.key, concern);
  }

  predicate IsConcern(concern: string) { concern == CHARACTER || concern == PLAYER }

  /** The same result but for offsets, and the same steps added. */
  predicate SameOutcome(c: Outcome<Bytes>, h: Outcome<Bytes>) {
    && c.addSteps == h.addSteps && (c.result.Some? <==> h.result.Some?)
    && (c.result.Some? ==> c.result.value.(cmpdOffset := None) == h.result.value.(cmpdOffset := None))
  }

  /** Nothing a command could work on. */
  predicate NoCommand(payload: Option<Bytes>) { payload.None? || payload.value.Packed? }

  /** The same step, but for its offset; a command submitted without payload may have picked
      one up from a refresh on the way, and is refused with either. */
  predicate SameStep(x: MStep, y: MStep) {
    && x.system == y.system && x.concern == y.concern && x.command == y.command && x.key == y.key
    && x.instance == y.instance && x.result == y.result
    && (x.payload == y.payload
        || (x.system.Process? && x.command.Platform? && NoCommand(x.payload) && NoCommand(y.payload)))
    && (!x.system.Process? ==> (x.cmpdOffset.Some? <==> y.cmpdOffset.Some?))
  }

  lemma AlikeStores(bare: Bares, c: World, h: World, concern: string)
    requires Alike(bare, c, h)
    ensures ColdStore(bare, StoreOf(c, concern), StoreOf(h, concern), c.db, concern)
    ensures "" !in StoreOf(h, concern) && "" !in StoreOf(c, concern)
  {
  }

  lemma AlikeAfter(bare: Bares, c: World, h: World, concern: string, key: string, sc: MStore, sh: MStore,
                   offc: CompoundOffset, offh: CompoundOffset)
    requires Alike(bare, c, h) && IsConcern(concern) && SameAt(sc, sh, key) && (key == "" ==> "" !in sh)
    requires OnlyAt(StoreOf(c, concern), sc, key, offc) && OnlyAt(StoreOf(h, concern), sh, key, offh)
    ensures Alike(bare, WithStore(c, concern, sc), WithStore(h, concern, sh))
  {
    var c', h' := WithStore(c, concern, sc), WithStore(h, concern, sh);
    AlikeStores(bare, c, h, concern);
    assert ColdStore(bare, sc, sh, c.db, concern) by {
      forall k | k in sc ensures k in sh && SameRec(sc[k], sh[k]) {
        if k != key { assert k in StoreOf(c, concern); }
      }
      forall k | k in sh && k !in sc ensures Kept(bare, c.db, concern, k, sh[k]) {
        assert k != key;
        assert k in StoreOf(h, concern) && k !in StoreOf(c, concern);
      }
    }
  }

  /** Both handlers answer alike, leave alike worlds and touch only the record of `key`. */
  ghost predicate AgreeAt(bare: Bares, c: World, h: World, concern: string, key: string, offc: CompoundOffset,
                          offh: CompoundOffset, ac: Answer<World>, ah: Answer<World>) {
    && SameOutcome(ac.outcome, ah.outcome) && Alike(bare, ac.state, ah.state) && ac.state.db == c.db
    && ah.state.db == h.db
    && OnlyAt(StoreOf(c, concern), StoreOf(ac.state, concern), key, offc)
    && OnlyAt(StoreOf(h, concern), StoreOf(ah.state, concern), key, offh)
    && SameAt(StoreOf(ac.state, concern), StoreOf(ah.state, concern), key)
    && (forall n :: n != concern ==> StoreOf(ac.state, n) == StoreOf(c, n) && StoreOf(ah.state, n) == StoreOf(h, n))
  }

  lemma AgreeAfter(bare: Bares, c: World, h: World, concern: string, key: string, rc: Answer<MStore>,
                   rh: Answer<MStore>, offc: CompoundOffset, offh: CompoundOffset)
    requires Alike(bare, c, h) && IsConcern(concern) && SameAt(rc.state, rh.state, key)
             && (key == "" ==> "" !in rh.state) && rc.outcome == rh.outcome
    requires OnlyAt(StoreOf(c, concern), rc.state, key, offc) && OnlyAt(StoreOf(h, concern), rh.state, key, offh)
    ensures AgreeAt(bare, c, h, concern, key, offc, offh,
                    Answer(rc.outcome, WithStore(c, concern, rc.state)),
                    Answer(rh.outcome, WithStore(h, concern, rh.state)))
  {
    AlikeAfter(bare, c, h, concern, key, rc.state, rh.state, offc, offh);
    WithStoreOf(c, concern, rc.state);
    WithStoreOf(h, concern, rh.state);
  }

  lemma WithStoreOf(w: World, concern: string, s: MStore)
    requires IsConcern(concern)
    ensures var w' := WithStore(w, concern, s);
            StoreOf(w', concern) == s && w'.db == w.db && forall n :: n != concern ==> StoreOf(w', n) == StoreOf(w, n)
  {
    assert CHARACTER != PLAYER by { assert |CHARACTER| != |PLAYER|; }
  }

  lemma NothingDone(bare: Bares, c: World, h: World, concern: string, key: string, offc: CompoundOffset,
                    offh: CompoundOffset, o: Outcome<Bytes>)
    requires Alike(bare, c, h) && SameAt(StoreOf(c, concern), StoreOf(h, concern), key)
    ensures AgreeAt(bare, c, h, concern, key, offc, offh, Answer(o, c), Answer(o, h))
  {
  }

  lemma LogicCommandAgrees(bare: Bares, c: World, h: World, x: MStep, y: MStep, inst: Option<Bytes>,
                           offc: CompoundOffset, offh: CompoundOffset, freshKey: string)
    requires Alike(bare, c, h) && x.system.Process? && SameStep(x, y)
             && SameAt(StoreOf(c, x.concern), StoreOf(h, x.concern), x.key)
    requires InOrder(StoreOf(c, x.concern), x.key, offc) && InOrder(StoreOf(h, x.concern), x.key, offh)
    requires (x.key == "" ==> x.command.ValidateCreate?) && IsConcern(x.concern) && x.payload == y.payload
    ensures AgreeAt(bare, c, h, x.concern, x.key, offc, offh,
                    HandleCommand(c, x, inst, offc, freshKey), HandleCommand(h, y, inst, offh, freshKey))
  {
    var i := if inst.Some? && inst.value.Inst? then Some(inst.value.inst) else None;
    var sc, sh := StoreOf(c, x.concern), StoreOf(h, x.concern);
    var ac, ah := LogicArgs(x.key, i, x.payload, offc), LogicArgs(y.key, i, y.payload, offh);
    LogicAgrees(x.concern, x.command, ac, ah, sc, sh);
    AgreeAfter(bare, c, h, x.concern, x.key, HandleLogic(x.concern, x.command, ac, sc),
               HandleLogic(y.concern, y.command, ah, sh), offc, offh);
  }

  /** A PROCESS step whose key both caches know, or neither. */
  lemma ProcessAgrees(bare: Bares, c: World, h: World, x: MStep, y: MStep, inst: Option<Bytes>, offc: CompoundOffset,
                      offh: CompoundOffset, freshKey: string)
    requires Alike(bare, c, h) && x.system.Process? && SameStep(x, y)
             && SameAt(StoreOf(c, x.concern), StoreOf(h, x.concern), x.key)
    requires InOrder(StoreOf(c, x.concern), x.key, offc) && InOrder(StoreOf(h, x.concern), x.key, offh)
    requires x.key == "" ==> x.command.ValidateCreate?
    ensures AgreeAt(bare, c, h, x.concern, x.key, offc, offh,
                    HandleCommand(c, x, inst, offc, freshKey), HandleCommand(h, y, inst, offh, freshKey))
  {
    if IsConcern(x.concern) && x.payload == y.payload {
      LogicCommandAgrees(bare, c, h, x, y, inst, offc, offh, freshKey);
    } else {
      NothingDone(bare, c, h, x.concern, x.key, offc, offh, HandleCommand(c, x, inst, offc, freshKey).outcome);
    }
  }

  // ---------- storage ----------

  /** A write or a delete at this offset goes through. */
  predicate Passes(db: MDb, concern: string, key: string, off: CompoundOffset) {
    Lookup(db, concern, key).Some? ==> OffsetGT(off, Lookup(db, concern, key).value.cmpdOffset)
  }

  /** At most the item of one key has been written, if the offset lets it. */
  ghost predicate WrittenAt(db: MDb, after: MDb, concern: string, key: string, i: Instance, off: CompoundOffset) {
    forall n, k :: Lookup(after, n, k) == if n == concern && k == key && Passes(db, concern, key, off)
                                          then Some(Item(i, None, off)) else Lookup(db, n, k)
  }

  ghost predicate ErasedAt(db: MDb, after: MDb, concern: string, key: string, off: CompoundOffset) {
    forall n, k :: Lookup(after, n, k) == if n == concern && k == key && Passes(db, concern, key, off)
                                          then None else Lookup(db, n, k)
  }

  lemma WriteIs(db: MDb, concern: string, key: string, i: Instance, off: CompoundOffset)
    ensures WrittenAt(db, Write(db, concern, key, i, None, off), concern, key, i, off)
  {
  }

  lemma EraseIs(db: MDb, concern: string, key: string, off: CompoundOffset)
    ensures ErasedAt(db, Erase(db, concern, key, off), concern, key, off)
  {
  }

  /** Both databases let the write through, or neither: what is in the same partition is older,
      and other partitions compare alike. */
  lemma GuardsAgree(c: MDb, h: MDb, concern: string, key: string, oc: CompoundOffset, oh: CompoundOffset)
    requires SameDb(c, h) && SameLine(oc, oh) && Newest(c, concern, oc) && Newest(h, concern, oh)
    ensures Passes(c, concern, key, oc) <==> Passes(h, concern, key, oh)
  {
  }

  lemma WriteSame(c: MDb, h: MDb, concern: string, key: string, i: Instance, oc: CompoundOffset, oh: CompoundOffset)
    requires SameDb(c, h) && SameLine(oc, oh) && Newest(c, concern, oc) && Newest(h, concern, oh)
    ensures SameDb(Write(c, concern, key, i, None, oc), Write(h, concern, key, i, None, oh))
  {
    GuardsAgree(c, h, concern, key, oc, oh);
    WriteIs(c, concern, key, i, oc);
    WriteIs(h, concern, key, i, oh);
  }

  lemma EraseSame(c: MDb, h: MDb, concern: string, key: string, oc: CompoundOffset, oh: CompoundOffset)
    requires SameDb(c, h) && SameLine(oc, oh) && Newest(c, concern, oc) && Newest(h, concern, oh)
    ensures SameDb(Erase(c, concern, key, oc), Erase(h, concern, key, oh))
  {
    GuardsAgree(c, h, concern, key, oc, oh);
    EraseIs(c, concern, key, oc);
    EraseIs(h, concern, key, oh);
  }

  /** The databases change alike, and at no key that only the warm cache has. */
  lemma ChangeAlike(bare: Bares, c: World, h: World, cdb: MDb, hdb: MDb)
    requires Alike(bare, c, h) && SameDb(cdb, hdb)
    requires forall n, k :: IsConcern(n) && k in StoreOf(h, n) && k !in StoreOf(c, n) ==>
                              Lookup(cdb, n, k) == Lookup(c.db, n, k)
    ensures Alike(bare, c.(db := cdb), h.(db := hdb))
  {
    forall n | IsConcern(n) ensures ColdStore(bare, StoreOf(c, n), StoreOf(h, n), cdb, n) {
      AlikeStores(bare, c, h, n);
      forall k | k in StoreOf(h, n) && k !in StoreOf(c, n) ensures Kept(bare, cdb, n, k, StoreOf(h, n)[k]) {
        assert Lookup(cdb, n, k) == Lookup(c.db, n, k);
      }
    }
    assert IsConcern(CHARACTER) && IsConcern(PLAYER) && StoreOf(h, PLAYER) == h.players
           && StoreOf(c, PLAYER) == c.players by {
      assert |CHARACTER| != |PLAYER|;
    }
  }

  lemma WriteAlike(bare: Bares, c: World, h: World, concern: string, key: string, i: Instance, oc: CompoundOffset,
                   oh: CompoundOffset)
    requires Alike(bare, c, h) && IsConcern(concern) && key !in StoreOf(h, concern)
    requires SameLine(oc, oh) && Newest(c.db, concern, oc) && Newest(h.db, concern, oh)
    ensures Alike(bare, c.(db := Write(c.db, concern, key, i, None, oc)),
                  h.(db := Write(h.db, concern, key, i, None, oh)))
  {
    WriteSame(c.db, h.db, concern, key, i, oc, oh);
    WriteIs(c.db, concern, key, i, oc);
    ChangeAlike(bare, c, h, Write(c.db, concern, key, i, None, oc), Write(h.db, concern, key, i, None, oh));
  }

  lemma EraseAlike(bare: Bares, c: World, h: World, concern: string, key: string, oc: CompoundOffset,
                   oh: CompoundOffset)
    requires Alike(bare, c, h) && IsConcern(concern) && SameAt(StoreOf(c, concern), StoreOf(h, concern), key)
    requires SameLine(oc, oh) && Newest(c.db, concern, oc) && Newest(h.db, concern, oh)
    ensures Alike(bare, c.(db := Erase(c.db, concern, key, oc)), h.(db := Erase(h.db, concern, key, oh)))
  {
    EraseSame(c.db, h.db, concern, key, oc, oh);
    EraseIs(c.db, concern, key, oc);
    ChangeAlike(bare, c, h, Erase(c.db, concern, key, oc), Erase(h.db, concern, key, oh));
  }
}
