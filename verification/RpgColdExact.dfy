/**
 Exactly when a cold cache shows. A storage read needs an item that was updated since it was
 created (`StorageReadExact`), so a lost record whose item was not is the one thing that
 makes some transaction end differently (`ColdWarmExact`). A create under a given key shows
 it when the warm cache has related bytes for that key and the cold one has not
 (`GivenCreateExact`).
 */
module RpgColdExact {
  import opened Wrappers
  import opened Offsets
  import opened ApecsTxns
  import opened ApecsRunners
  import ApecsProvenance
  import opened InstanceStores
  import opened RamDbs
  import opened Rpg
  import opened RpgWorlds
  import opened RpgTermination
  import opened RpgCold
  import opened RpgColdRuns
  import opened RpgColdWarm

  // ---------- storage reads ----------

  /** A STORAGE READ goes on exactly when the item is there and was updated since its creation. */
  lemma StorageReadExact(w: World, txn: MTxn, off: CompoundOffset, freshKey: string)
    requires InFlight(txn) && Current(txn).system.Storage? && Current(txn).command.Read?
             && Current(txn).cmpdOffset.Some?
    requires Current(txn).key != "" && IsConcern(Current(txn).concern)
    ensures var step, r := Current(txn), Serve(w, txn, off, freshKey);
            && r.world == w
            && (!r.fate.Failed? <==> Lookup(w.db, step.concern, step.key).Some?
                                     && Lookup(w.db, step.concern, step.key).value.rel.Some?)
  {
    KeyedAdmission(w, txn, off);
    AnsweredIs(w, txn, off, freshKey);
    if AnsweredOk(Answered(w, txn, off, freshKey)) {
      ServeAdmitted(w, txn, off, freshKey);
    } else {
      StopCode(w, txn, off, freshKey);
    }
  }

  /** Items are instances of their concern. */
  ghost predicate Typed(db: MDb) {
    forall n, k :: IsConcern(n) && Lookup(db, n, k).Some? ==>
                     IsA(Lookup(db, n, k).value.inst, n) && (Lookup(db, n, k).value.rel.Some? ==>
                                                               RelIsA(Lookup(db, n, k).value.rel.value, n))
  }

  predicate ReadsOnly(txn: MTxn, concern: string, k: string) {
    InFlight(txn) && Pending(txn) == [UserStep(concern, Read, k, None)]
  }

  lemma SubmittedRead(id: string, target: Option<TopicTarget>, uponError: UponError, concern: string, k: string)
    requires id != ""
    ensures var txn := NewApecsTxn(id, None, target, uponError, [UserStep(concern, Read, k, None)]);
            txn.Some? ==> ReadsOnly(txn.value, concern, k)
  {
    var steps := [UserStep(concern, Read, k, None)];
    ApecsProvenance.NewTxnChained(id, None, target, uponError, steps);
    assert steps[1..] == [] && ExpandAll(steps) == steps;
  }

  /** A READ alone completes exactly when its record is cached, or stored and updated since
      its creation. */
  lemma ReadExact(w: World, txn: MTxn, concern: string, k: string, feed: Feed, n: nat)
    requires ReadsOnly(txn, concern, k) && IsConcern(concern) && k != "" && DbKeyed(w.db) && Typed(w.db)
             && MakesKeys(feed)
    ensures RunAlone(w, txn, feed, n).fate.Completed? <==>
              k in StoreOf(w, concern) || (Lookup(w.db, concern, k).Some? && Lookup(w.db, concern, k).value.rel.Some?)
  {
    CurrentInFlight(txn);
    RunOne(w, txn, feed, n);
    var item := Lookup(w.db, concern, k);
    if k in StoreOf(w, concern) {
      var r, done := WarmRead(w, txn, feed, n);
    } else if item.None? {
      MissedEnds(w, txn, feed, n);
    } else if item.value.rel.None? {
      BareEnds(iset{(concern, k)}, w, txn, feed, n);
    } else {
      var rec := Rec(item.value.inst, RelBytes(item.value.rel.value), item.value.cmpdOffset);
      assert StoredAs(w.db, concern, k, rec);
      var f, x, read, refresh := ColdDetour(w, txn, rec, feed, n);
    }
  }

  // ---------- every transaction ends alike ----------

  ghost predicate SameTxn(bare: Bares, c: World, h: World, feed: Feed, id: string, target: Option<TopicTarget>,
                          uponError: UponError, steps: seq<MStep>)
    requires DbKeyed(c.db) && DbKeyed(h.db)
  {
    var txn := NewApecsTxn(id, None, target, uponError, steps);
    txn.Some? && InFlight(txn.value) ==> SameEnd(bare, RunAlone(c, txn.value, feed, 0), RunAlone(h, txn.value, feed, 0))
  }

  /** A lost record whose item was created and never updated: the warm READ completes and the
      cold one stops. */
  lemma BareReadDiffers(bare: Bares, c: World, h: World, feed: Feed, n: string, k: string)
    requires DbKeyed(c.db) && DbKeyed(h.db) && Typed(c.db) && Typed(h.db) && MakesKeys(feed) && IsConcern(n) && k != ""
    requires k in StoreOf(h, n) && k !in StoreOf(c, n) && Bare(c.db, n, k)
    ensures !SameTxn(bare, c, h, feed, "t", None, Report, [UserStep(n, Read, k, None)])
  {
    SubmittedRead("t", None, Report, n, k);
    var t := NewApecsTxn("t", None, None, Report, [UserStep(n, Read, k, None)]).value;
    ReadExact(c, t, n, k, feed, 0);
    ReadExact(h, t, n, k, feed, 0);
  }

  /** Whatever is submitted ends alike. */
  ghost predicate AllSame(bare: Bares, c: World, h: World, feed: Feed)
    requires DbKeyed(c.db) && DbKeyed(h.db)
  {
    forall id, target, uponError, steps :: id != "" && Started(bare, c, h, steps, feed) ==>
                                             SameTxn(bare, c, h, feed, id, target, uponError, steps)
  }

  /** No lost record's item was created and never updated. */
  ghost predicate NoneBare(c: World, h: World) {
    forall n, k :: IsConcern(n) && k in StoreOf(h, n) && k !in StoreOf(c, n) ==> !Bare(c.db, n, k)
  }

  ghost predicate ColdWarm(bare: Bares, c: World, h: World, feed: Feed) {
    && Alike(bare, c, h) && DbKeyed(c.db) && DbKeyed(h.db) && Typed(c.db) && Typed(h.db)
    && Increasing(feed) && Ahead(c, feed, 0) && Ahead(h, feed, 0) && Unused(h, feed, 0)
  }

  lemma ReadStarts(bare: Bares, c: World, h: World, feed: Feed, n: string, k: string)
    requires ColdWarm(bare, c, h, feed)
    ensures Started(bare, c, h, [UserStep(n, Read, k, None)], feed)
  {
  }

  lemma BareShows(bare: Bares, c: World, h: World, feed: Feed, n: string, k: string)
    requires ColdWarm(bare, c, h, feed) && IsConcern(n) && k in StoreOf(h, n) && k !in StoreOf(c, n) && Bare(c.db, n, k)
    ensures !AllSame(bare, c, h, feed)
  {
    AlikeStores(bare, c, h, n);
    ReadStarts(bare, c, h, feed, n, k);
    BareReadDiffers(bare, c, h, feed, n, k);
  }

  lemma SameEndMore(bare: Bares, a: Ending, b: Ending)
    requires SameEnd(iset{}, a, b)
    ensures SameEnd(bare, a, b)
  {
  }

  lemma NothingShows(bare: Bares, c: World, h: World, feed: Feed, id: string, target: Option<TopicTarget>,
                     uponError: UponError, steps: seq<MStep>)
    requires Started(bare, c, h, steps, feed) && Alike(iset{}, c, h) && id != ""
    ensures SameTxn(bare, c, h, feed, id, target, uponError, steps)
  {
    ColdEqualsWarm(c, h, id, target, uponError, steps, feed);
    var txn := NewApecsTxn(id, None, target, uponError, steps);
    if txn.Some? && InFlight(txn.value) {
      SameEndMore(bare, RunAlone(c, txn.value, feed, 0), RunAlone(h, txn.value, feed, 0));
    }
  }

  /** Transactions on a cold and a warm world end alike, whatever is submitted, exactly when
      no lost record's item was created and never updated. */
  lemma ColdWarmExact(bare: Bares, c: World, h: World, feed: Feed)
    requires ColdWarm(bare, c, h, feed)
    ensures AllSame(bare, c, h, feed) <==> NoneBare(c, h)
  {
    if NoneBare(c, h) {
      NoBareAlike(bare, c, h);
      forall id, target, uponError, steps | id != "" && Started(bare, c, h, steps, feed)
        ensures SameTxn(bare, c, h, feed, id, target, uponError, steps) {
        NothingShows(bare, c, h, feed, id, target, uponError, steps);
      }
    } else {
      var n, k :| IsConcern(n) && k in StoreOf(h, n) && k !in StoreOf(c, n) && Bare(c.db, n, k);
      BareShows(bare, c, h, feed, n, k);
    }
  }

  lemma NoBareAlike(bare: Bares, c: World, h: World)
    requires Alike(bare, c, h) && NoneBare(c, h)
    ensures Alike(iset{}, c, h)
  {
    forall m | IsConcern(m) ensures ColdStore(iset{}, StoreOf(c, m), StoreOf(h, m), c.db, m) && "" !in StoreOf(h, m) {
      AlikeStores(bare, c, h, m);
    }
    StoresAlike(iset{}, c, h);
  }

  // ---------- creates under a given key ----------

  /** The key under which a create stores. */
  function CreatedKey(step: MStep, freshKey: string): string {
    if GivenKey(step) == "" then freshKey else GivenKey(step)
  }

  /** Every create that goes through leaves an item without related value, at the offset the
      step carries; it goes through unless an item of that key has a greater one. */
  lemma CreatedIsBare(w: World, txn: MTxn, off: CompoundOffset, freshKey: string)
    requires InFlight(txn) && IsCreate(Current(txn)) && Current(txn).cmpdOffset.Some? && freshKey != "" && DbKeyed(w.db)
    requires !Serve(w, txn, off, freshKey).fate.Failed?
    ensures var step := Current(txn);
            CreatedAt(w.db, Serve(w, txn, off, freshKey).world.db, step.concern, CreatedKey(step, freshKey),
                      step.cmpdOffset.value)
  {
    KeyedAdmission(w, txn, off);
    AnsweredIs(w, txn, off, freshKey);
    if !AnsweredOk(Answered(w, txn, off, freshKey)) { StopCode(w, txn, off, freshKey); }
    CreatedBare(w, Arrived(txn, off), off, freshKey);
  }

  ghost predicate CreatedAt(db: MDb, after: MDb, concern: string, k: string, off: CompoundOffset) {
    if Passes(db, concern, k, off) then Bare(after, concern, k) && Lookup(after, concern, k).value.cmpdOffset == off
    else Lookup(after, concern, k) == Lookup(db, concern, k)
  }

  lemma CreatedBare(w: World, y: MStep, off: CompoundOffset, freshKey: string)
    requires IsCreate(y) && y.cmpdOffset.Some? && freshKey != "" && AnsweredOk(HandleCommand(w, y, None, off, freshKey))
    ensures CreatedAt(w.db, HandleCommand(w, y, None, off, freshKey).state.db, y.concern, CreatedKey(y, freshKey),
                      y.cmpdOffset.value)
  {
    var given := PayloadInst(y.payload.value).value;
    var i := if InstKey(given) == "" then WithKey(given, freshKey) else given;
    WriteIs(w.db, y.concern, InstKey(i), i, y.cmpdOffset.value);
  }

  /** The finished steps of a run. */
  function DoneSteps(f: Fate<Bytes>): seq<MStep>
    requires InRange(f.txn)
  {
    if f.Completed? then f.txn.forwardSteps else Finished(f.txn)
  }

  lemma VisitKeepsDone(w: World, txn: MTxn, off: CompoundOffset, freshKey: string)
    requires InFlight(txn)
    ensures var f := Serve(w, txn, off, freshKey).fate; InRange(f.txn) && Finished(txn) <= DoneSteps(f)
  {
    if AdmitAt(w, txn, off).Missed? {
      ServeMissed(w, txn, off, freshKey);
    } else if AdmitAt(w, txn, off).Admitted? && AnsweredOk(Answered(w, txn, off, freshKey)) {
      ServeAdmitted(w, txn, off, freshKey);
    } else {
      ServeStops(w, txn, off, freshKey);
    }
  }

  lemma {:induction false} DoneKept(w: World, txn: MTxn, feed: Feed, n: nat)
    requires InFlight(txn) && DbKeyed(w.db)
    ensures var f := RunAlone(w, txn, feed, n).fate; InRange(f.txn) && Finished(txn) <= DoneSteps(f)
    decreases Weight(w, txn)
  {
    var off, key := OffAt(feed, txn, n), KeyAt(feed, txn);
    VisitKeepsDone(w, txn, off, key);
    RunOne(w, txn, feed, n);
    var r := Serve(w, txn, off, key);
    if r.fate.Forwarded? { DoneKept(r.world, r.fate.txn, feed, n + 1); }
  }

  /** A valid instance with its own key. */
  predicate Creatable(n: string, i: Instance) {
    IsConcern(n) && IsA(i, n) && InstKey(i) != "" && ValidateCreateInst(i).Done?
  }

  function CreateStep(n: string, i: Instance): MStep { UserStep(n, Create, "", Some(Inst(i))) }

  predicate CreatesOnly(txn: MTxn, n: string, i: Instance) {
    InFlight(txn) && Finished(txn) == [] && Pending(txn) == Expand(CreateStep(n, i))
  }

  lemma SubmittedCreate(id: string, target: Option<TopicTarget>, uponError: UponError, n: string, i: Instance)
    requires id != ""
    ensures var txn := NewApecsTxn(id, None, target, uponError, [CreateStep(n, i)]);
            txn.Some? ==> CreatesOnly(txn.value, n, i)
  {
    var steps := [CreateStep(n, i)];
    ApecsProvenance.NewTxnChained(id, None, target, uponError, steps);
    assert steps[1..] == [] && ExpandAll(steps) == Expand(CreateStep(n, i)) + [];
  }

  /** The first visit: the validation. */
  lemma FirstVisit(w: World, txn: MTxn, n: string, i: Instance, feed: Feed) returns (t: MTxn, done: MStep)
    requires CreatesOnly(txn, n, i) && Creatable(n, i) && DbKeyed(w.db)
    ensures InFlight(t) && Leads(w, txn, 0, w, t, 1, feed) && Finished(t) == [done] && IsValidateCreate(done)
    ensures |Pending(t)| == 1 && KeyedCreate(Current(t)) && Current(t).concern == n
            && Current(t).payload == Some(Inst(i))
    ensures Current(t).cmpdOffset == Some(feed.offs(n, feed.routes(0), 0))
  {
    CurrentInFlight(txn);
    var off, key := OffAt(feed, txn, 0), KeyAt(feed, txn);
    KeyedAdmission(w, txn, off);
    AnsweredIs(w, txn, off, key);
    ValidateAnswer(w, Arrived(txn, off), i, off, key);
    ServeAdmitted(w, txn, off, key);
    RunOne(w, txn, feed, 0);
    t, done := Serve(w, txn, off, key).fate.txn, SettledStep(w, txn, off, key);
    AfterValidation(txn, Serve(w, txn, off, key).fate, done, n, i, off);
  }

  lemma ValidateAnswer(w: World, y: MStep, i: Instance, off: CompoundOffset, freshKey: string)
    requires IsValidateCreate(y) && y.payload == Some(Inst(i)) && Creatable(y.concern, i)
    ensures HandleCommand(w, y, None, off, freshKey) == Answer(Outcome(Some(OkResult(Some(Inst(i)))), []), w)
  {
    ValidateKeeps(w, y, None, off, freshKey);
  }

  lemma AfterValidation(txn: MTxn, f: Fate<Bytes>, done: MStep, n: string, i: Instance, off: CompoundOffset)
    requires CreatesOnly(txn, n, i) && Creatable(n, i) && SuccessOf(txn, f, done, [], off)
             && done.cmpdOffset == Some(off)
    ensures f.Forwarded? && InFlight(f.txn) && Finished(f.txn) == [done] && |Pending(f.txn)| == 1
    ensures var next := Current(f.txn);
            KeyedCreate(next) && next.concern == n && next.payload == Some(Inst(i)) && next.cmpdOffset == Some(off)
  {
    var rest := Pending(txn)[1..];
    assert [] + rest == rest;
    CurrentInFlight(f.txn);
  }

  /** The second: the instance is stored. */
  lemma SecondVisit(w: World, t: MTxn, n: string, i: Instance, feed: Feed) returns (w1: World, t1: MTxn, done: MStep)
    requires InFlight(t) && KeyedCreate(Current(t)) && Current(t).concern == n && Current(t).payload == Some(Inst(i))
             && Creatable(n, i)
    requires Current(t).cmpdOffset.Some? && DbKeyed(w.db)
    ensures InFlight(t1) && Leads(w, t, 1, w1, t1, 2, feed) && Finished(t1) == Finished(t) + [done] && IsCreate(done)
    ensures HalfStep(Current(t1), i) && Current(t1).concern == n && w1.chars == w.chars && w1.players == w.players
  {
    CurrentInFlight(t);
    var off, key := OffAt(feed, t, 1), KeyAt(feed, t);
    KeyedAdmission(w, t, off);
    AnsweredIs(w, t, off, key);
    KeyedCreated(w, Arrived(t, off), off, key);
    ServeAdmitted(w, t, off, key);
    RunOne(w, t, feed, 1);
    var r := Serve(w, t, off, key);
    w1, t1, done := r.world, r.fate.txn, SettledStep(w, t, off, key);
    CurrentInFlight(t1);
  }

  lemma KeyedCreated(w: World, y: MStep, off: CompoundOffset, f: string)
    requires KeyedCreate(y) && y.cmpdOffset.Some? && y.payload.Some? && y.payload.value.Inst?
             && Creatable(y.concern, y.payload.value.inst)
    ensures AnsweredOk(HandleCommand(w, y, None, off, f))
    ensures var i, a := y.payload.value.inst, HandleCommand(w, y, None, off, f);
            && a.outcome.addSteps != []
            && a.outcome.addSteps[0] == ProcessStep(y.concern, RefreshInstance, InstKey(i), Some(Packed(i, None)))
            && a.state.chars == w.chars && a.state.players == w.players
  {
  }

  /** The third: the refresh finds the related bytes the cache has. */
  lemma ThirdVisit(w: World, t: MTxn, n: string, i: Instance, feed: Feed) returns (done: MStep)
    requires InFlight(t) && HalfStep(Current(t), i) && Current(t).concern == n && DbKeyed(w.db)
    requires InOrder(StoreOf(w, n), InstKey(i), feed.offs(n, InstKey(i), 2))
    ensures var f := RunAlone(w, t, feed, 2).fate; InRange(f.txn) && Finished(t) + [done] <= DoneSteps(f)
    ensures DoneOk(done) && done.system.Process? && done.command.RefreshInstance?
    ensures done.result.value.payload == Some(Packed(i, GetRelated(StoreOf(w, n), InstKey(i))))
  {
    var off, key := OffAt(feed, t, 2), KeyAt(feed, t);
    KeyedAdmission(w, t, off);
    AnsweredIs(w, t, off, key);
    GivenRefresh(w, Arrived(t, off), i, off, key);
    ServeAdmitted(w, t, off, key);
    RunOne(w, t, feed, 2);
    var r := Serve(w, t, off, key);
    done := SettledStep(w, t, off, key);
    if r.fate.Forwarded? {
      WeightDrops(w, t, off, key);
      DoneKept(r.world, r.fate.txn, feed, 3);
    }
  }

  /** The three steps a create under a given key finishes whatever comes next. */
  predicate Creation(d: seq<MStep>, i: Instance, rel: Option<Related>) {
    && |d| >= 3 && IsValidateCreate(d[0]) && IsCreate(d[1]) && d[2].system.Process? && d[2].command.RefreshInstance?
    && DoneOk(d[2]) && d[2].result.value.payload == Some(Packed(i, rel))
  }

  lemma GivenCreateRun(w: World, txn: MTxn, n: string, i: Instance, feed: Feed)
    requires CreatesOnly(txn, n, i) && Creatable(n, i) && DbKeyed(w.db) && Ahead(w, feed, 0)
    ensures var f := RunAlone(w, txn, feed, 0).fate;
            InRange(f.txn) && Creation(DoneSteps(f), i, GetRelated(StoreOf(w, n), InstKey(i)))
  {
    var t, d0 := FirstVisit(w, txn, n, i, feed);
    var w1, t1, d1 := SecondVisit(w, t, n, i, feed);
    LeadsOn(w, txn, 0, w, t, 1, w1, t1, 2, feed);
    StoredCreateRun(w, w1, t1, n, i, feed, d0, d1);
  }

  lemma StoredCreateRun(w: World, w1: World, t1: MTxn, n: string, i: Instance, feed: Feed, d0: MStep, d1: MStep)
    requires InFlight(t1) && HalfStep(Current(t1), i) && Current(t1).concern == n && DbKeyed(w1.db)
    requires w1.chars == w.chars && w1.players == w.players && Ahead(w, feed, 0)
    requires Finished(t1) == [d0] + [d1] && IsValidateCreate(d0) && IsCreate(d1)
    ensures var f := RunAlone(w1, t1, feed, 2).fate;
            InRange(f.txn) && Creation(DoneSteps(f), i, GetRelated(StoreOf(w, n), InstKey(i)))
  {
    assert StoreOf(w1, n) == StoreOf(w, n);
    var d2 := ThirdVisit(w1, t1, n, i, feed);
    Firsts(DoneSteps(RunAlone(w1, t1, feed, 2).fate), d0, d1, d2);
  }

  lemma Firsts<T>(d: seq<T>, x: T, y: T, z: T)
    requires [x] + [y] + [z] <= d
    ensures |d| >= 3 && d[0] == x && d[1] == y && d[2] == z
  {
    var s := [x] + [y] + [z];
    assert d[0] == s[0] && d[1] == s[1] && d[2] == s[2];
  }

  lemma MatchesTwo(c: seq<MStep>, h: seq<MStep>)
    requires Matches(c, h) && |c| == 2 && IsValidateCreate(c[0]) && IsCreate(c[1])
    ensures |h| == 2
  {
    MatchesOne(c[..1], h[..|h| - 1]);
  }

  lemma MatchesOne(c: seq<MStep>, h: seq<MStep>)
    requires Matches(c, h) && |c| == 1
    ensures |h| == 1
  {
    var rest := h[..|h| - 1];
    assert Matches([], rest);
    assert rest == [];
  }

  /** Finished creations that match agree in the refreshed record. */
  lemma {:induction false} MatchesThird(c: seq<MStep>, h: seq<MStep>, i: Instance, rel: Option<Related>)
    requires Matches(c, h) && Creation(c, i, rel)
    ensures |h| >= 3 && SameDone(c[2], h[2])
    decreases |c|
  {
    var n := |c| - 1;
    if h != [] && SameDone(Last(c), Last(h)) && Matches(c[..n], h[..|h| - 1]) {
      if n == 2 {
        MatchesTwo(c[..n], h[..|h| - 1]);
      } else {
        MatchesThird(c[..n], h[..|h| - 1], i, rel);
      }
    } else if Matches(c[..n - 1], h) {
      MatchesThird(c[..n - 1], h, i, rel);
    } else {
      MatchesThird(c[..n - 1], h[..|h| - 1], i, rel);
    }
  }

  /** A create alone, under a given key, ends alike on a cold and a warm world exactly when
      the cold cache has not lost related bytes for that key. */
  lemma GivenCreateExact(c: World, h: World, feed: Feed, id: string, target: Option<TopicTarget>, uponError: UponError,
                         n: string, i: Instance)
    requires ColdWarm(iset{}, c, h, feed) && id != "" && Creatable(n, i) && forall m: nat :: feed.keys(m) != InstKey(i)
    requires NewApecsTxn(id, None, target, uponError, [CreateStep(n, i)]).Some?
    ensures SameTxn(iset{}, c, h, feed, id, target, uponError, [CreateStep(n, i)]) <==>
              !LostRelated(c, h, n, InstKey(i))
  {
    SubmittedCreate(id, target, uponError, n, i);
    var t := NewApecsTxn(id, None, target, uponError, [CreateStep(n, i)]).value;
    if LostRelated(c, h, n, InstKey(i)) {
      GivenCreateRun(c, t, n, i, feed);
      GivenCreateRun(h, t, n, i, feed);
      CreationsDiffer(RunAlone(c, t, feed, 0), RunAlone(h, t, feed, 0), i, StoreOf(h, n)[InstKey(i)].rel.value);
    } else {
      CreateStarts(c, h, feed, n, i);
      ColdEqualsWarm(c, h, id, target, uponError, [CreateStep(n, i)], feed);
    }
  }

  lemma CreateStarts(c: World, h: World, feed: Feed, n: string, i: Instance)
    requires ColdWarm(iset{}, c, h, feed) && !LostRelated(c, h, n, InstKey(i)) && forall m: nat ::
               feed.keys(m) != InstKey(i)
    ensures Started(iset{}, c, h, [CreateStep(n, i)], feed)
  {
  }

  lemma CreationsDiffer(c: Ending, h: Ending, i: Instance, rel: Related)
    requires InRange(c.fate.txn) && InRange(h.fate.txn)
    requires Creation(DoneSteps(c.fate), i, None) && Creation(DoneSteps(h.fate), i, Some(rel))
    ensures !SameEnd(iset{}, c, h)
  {
    var dc, dh := DoneSteps(c.fate), DoneSteps(h.fate);
    if Matches(dc, dh) { MatchesThird(dc, dh, i, None); }
  }
}
