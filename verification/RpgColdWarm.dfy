/** A cold cache equals a warm cache: the visits, and the theorem. */
module RpgColdWarm {
  import opened Wrappers
  import opened Offsets
  import opened ApecsTxns
  import opened ApecsRunners
  import opened ApecsInvariants
  import ApecsProvenance
  import opened InstanceStores
  import opened RamDbs
  import opened Rpg
  import opened RpgWorlds
  import opened RpgTermination
  import opened RpgCold
  import opened RpgColdRuns

  // ---------- admission, given the step's key ----------

  lemma KeyedAdmission(w: World, txn: MTxn, off: CompoundOffset)
    requires InFlight(txn) && KeyGiven(txn)
    ensures var step := Current(txn); var store := StoreOf(w, step.concern);
            if step.key == "" && !IsKeylessStep(step) then AdmitAt(w, txn, off) == Rejected(KeyNotPresent)
            else
              && ArrivedIn(txn, Arrived(txn, off), off)
              && AdmitAt(w, txn, off) ==
                   if NeedsInstance(step) then
                     (if step.key !in store then Missed else if step.command.Create? then Rejected(Internal)
                      else Admitted(Some(Inst(store[step.key].inst))))
                   else if !step.system.Process? && step.cmpdOffset.None? then Rejected(Internal)
                   else Admitted(None)
  {
    CurrentInFlight(txn);
    ArrivedShape(txn, off);
  }

  /** The code with which a transaction that stops here fails. */
  lemma StopCode(w: World, txn: MTxn, off: CompoundOffset, freshKey: string)
    requires InFlight(txn) && !AdmitAt(w, txn, off).Missed?
    requires AdmitAt(w, txn, off).Rejected? || !AnsweredOk(Answered(w, txn, off, freshKey))
    ensures var r := Serve(w, txn, off, freshKey);
            r.fate.Failed? &&
            r.fate.code ==
              (if AdmitAt(w, txn, off).Rejected? then AdmitAt(w, txn, off).code
               else
                 var o := Answered(w, txn, off, freshKey).outcome.result;
                 if o.Some? then o.value.code else if txn.uponError.Bailout? then NilResult else Internal)
  {
    CurrentInFlight(txn);
  }

  lemma AnsweredIs(w: World, txn: MTxn, off: CompoundOffset, freshKey: string)
    requires InRange(txn) && AdmitAt(w, txn, off).Admitted?
    ensures Answered(w, txn, off, freshKey) == HandleCommand(w, Arrived(txn, off), AdmitAt(w, txn, off).inst, off,
                                                             freshKey)
  {
  }

  // ---------- both runs stop ----------

  lemma BothStop(bare: Bares, c: World, tc: MTxn, fc: Fate<Bytes>, h: World, th: MTxn, fh: Fate<Bytes>)
    requires FailureOf(tc, fc) && FailureOf(th, fh) && fc.code == fh.code && Matches(Finished(tc), Finished(th))
             && Alike(bare, c, h)
    ensures SameEnd(bare, Ending(fc, c, 1), Ending(fh, h, 1))
  {
  }

  /** A step for something neither cached nor stored ends the run, with the storage read. */
  lemma MissedEnds(w: World, txn: MTxn, feed: Feed, n: nat)
    requires InFlight(txn) && DbKeyed(w.db) && KeyGiven(txn) && MakesKeys(feed)
    requires var step := Current(txn);
             NeedsInstance(step) && step.key != "" && step.key !in StoreOf(w, step.concern)
             && (IsConcern(step.concern) ==> Lookup(w.db, step.concern, step.key).None?)
    ensures var e := RunAlone(w, txn, feed, n);
            && e.world == w && e.fate.Failed? && e.fate.code == Internal && InRange(e.fate.txn)
            && Finished(e.fate.txn) == Finished(txn)
  {
    var off, key := OffAt(feed, txn, n), KeyAt(feed, txn);
    KeyedAdmission(w, txn, off);
    ServeMissed(w, txn, off, key);
    var t := Serve(w, txn, off, key).fate.txn;
    LostEnds(w, txn, t, Arrived(txn, off), off, feed, n + 1);
  }

  lemma LostEnds(w: World, txn: MTxn, t: MTxn, step: MStep, off: CompoundOffset, feed: Feed, n: nat)
    requires DetourOf(txn, t, step, off) && DbKeyed(w.db) && MakesKeys(feed) && step.key != ""
    requires IsConcern(step.concern) ==> Lookup(w.db, step.concern, step.key).None?
    ensures var e := RunAlone(w, t, feed, n);
            && e.world == w && e.fate.Failed? && e.fate.code == Internal && InRange(e.fate.txn)
            && Finished(e.fate.txn) == Finished(txn)
  {
    CurrentInFlight(t);
    var o, key := OffAt(feed, t, n), KeyAt(feed, t);
    assert Current(t) == StorageRead(step, off);
    KeyedAdmission(w, t, o);
    AnsweredIs(w, t, o, key);
    ServeStops(w, t, o, key);
    StopCode(w, t, o, key);
  }

  // ---------- one visit in each run, to the same step ----------

  /** Both runs go on in step, or both end alike. */
  ghost predicate Together(bare: Bares, rc: Served, nc: nat, rh: Served, nh: nat, feed: Feed) {
    && (rc.fate.Forwarded? <==> rh.fate.Forwarded?)
    && (rc.fate.Forwarded? ==> Sync(bare, rc.world, rc.fate.txn, nc, rh.world, rh.fate.txn, nh, feed))
    && (!rc.fate.Forwarded? ==> SameEnd(bare, Ending(rc.fate, rc.world, 1), Ending(rh.fate, rh.world, 1)))
  }

  /** What one visit does when it succeeds, as far as one run is concerned. */
  ghost predicate Succeeds(w: World, txn: MTxn, off: CompoundOffset, x: MStep, a: Answer<World>, settled: MStep,
                           r: Served) {
    && InFlight(txn) && ArrivedIn(txn, x, off) && AnsweredOk(a) && r.world == a.state
    && SuccessOf(txn, r.fate, settled, a.outcome.addSteps, off) && SameTransaction(txn, r.fate.txn)
    && (exists inst :: settled == Settle(x, a.outcome.result.value, inst)) && DbKeyed(a.state.db)
  }

  lemma VisitSucceeds(w: World, txn: MTxn, off: CompoundOffset, freshKey: string)
    requires InFlight(txn) && DbKeyed(w.db) && AdmitAt(w, txn, off).Admitted?
             && AnsweredOk(Answered(w, txn, off, freshKey)) && ArrivedIn(txn, Arrived(txn, off), off)
    ensures Succeeds(w, txn, off, Arrived(txn, off), Answered(w, txn, off, freshKey),
                     SettledStep(w, txn, off, freshKey), Serve(w, txn, off, freshKey))
  {
    ServeAdmitted(w, txn, off, freshKey);
    ServeLawful(w, txn, off, freshKey);
    ServeKeepsKeyed(w, txn, off, freshKey);
  }

  lemma MakePaired(c: World, tc: MTxn, h: World, th: MTxn, offc: CompoundOffset, offh: CompoundOffset, x: MStep,
                   y: MStep, ac: Answer<World>, ah: Answer<World>, sc: MStep, sh: MStep, rc: Served, rh: Served)
    requires Succeeds(c, tc, offc, x, ac, sc, rc) && Succeeds(h, th, offh, y, ah, sh, rh)
             && SameOutcome(ac.outcome, ah.outcome)
    ensures Paired(tc, th, x, y, ac, ah, sc, sh, rc.fate, rh.fate, offc, offh)
  {
  }

  lemma StopsTogether(bare: Bares, c: World, tc: MTxn, nc: nat, h: World, th: MTxn, nh: nat, feed: Feed, rc: Served,
                      rh: Served)
    requires Sync(bare, c, tc, nc, h, th, nh, feed) && FailureOf(tc, rc.fate) && FailureOf(th, rh.fate)
             && rc.fate.code == rh.fate.code
    requires rc.world == c && rh.world == h
    ensures Together(bare, rc, nc + 1, rh, nh + 1, feed)
  {
    BothStop(bare, c, tc, rc.fate, h, th, rh.fate);
  }

  /** Both runs turn the step away with the same code. */
  lemma RejectedTogether(bare: Bares, c: World, tc: MTxn, nc: nat, h: World, th: MTxn, nh: nat, feed: Feed, code: Code,
                         freshKey: string)
    requires Sync(bare, c, tc, nc, h, th, nh, feed) && freshKey != ""
    requires AdmitAt(c, tc, OffAt(feed, tc, nc)) == Rejected(code)
             && AdmitAt(h, th, OffAt(feed, th, nh)) == Rejected(code)
    ensures Together(bare, Serve(c, tc, OffAt(feed, tc, nc), freshKey), nc + 1,
                     Serve(h, th, OffAt(feed, th, nh), freshKey), nh + 1, feed)
  {
    var offc, offh := OffAt(feed, tc, nc), OffAt(feed, th, nh);
    ServeStops(c, tc, offc, freshKey);
    ServeStops(h, th, offh, freshKey);
    StopCode(c, tc, offc, freshKey);
    StopCode(h, th, offh, freshKey);
    StopsTogether(bare, c, tc, nc, h, th, nh, feed, Serve(c, tc, offc, freshKey), Serve(h, th, offh, freshKey));
  }

  /** Both handlers refuse the step with the same code. */
  lemma RefusedTogether(bare: Bares, c: World, tc: MTxn, nc: nat, h: World, th: MTxn, nh: nat, feed: Feed,
                        freshKey: string)
    requires Sync(bare, c, tc, nc, h, th, nh, feed) && freshKey != ""
    requires AdmitAt(c, tc, OffAt(feed, tc, nc)).Admitted? && AdmitAt(h, th, OffAt(feed, th, nh)).Admitted?
    requires SameOutcome(Answered(c, tc, OffAt(feed, tc, nc), freshKey).outcome,
                         Answered(h, th, OffAt(feed, th, nh), freshKey).outcome)
    requires !AnsweredOk(Answered(h, th, OffAt(feed, th, nh), freshKey))
    ensures Together(bare, Serve(c, tc, OffAt(feed, tc, nc), freshKey), nc + 1,
                     Serve(h, th, OffAt(feed, th, nh), freshKey), nh + 1, feed)
  {
    var offc, offh := OffAt(feed, tc, nc), OffAt(feed, th, nh);
    ServeStops(c, tc, offc, freshKey);
    ServeStops(h, th, offh, freshKey);
    StopCode(c, tc, offc, freshKey);
    StopCode(h, th, offh, freshKey);
    StopsTogether(bare, c, tc, nc, h, th, nh, feed, Serve(c, tc, offc, freshKey), Serve(h, th, offh, freshKey));
  }

  // PROCESS steps

  /** The step runs on a record both caches have, or is one that needs none. */
  ghost predicate Runnable(c: World, h: World, y: MStep) {
    && y.system.Process? && !IsValidateUpdate(y) && !IsUpdate(y)
    && (NeedsInstance(y) ==> y.key != "" && !y.command.Create? && y.key in StoreOf(c, y.concern)
                             && y.key in StoreOf(h, y.concern))
  }

  lemma ProcessSuccess(bare: Bares, c: World, tc: MTxn, nc: nat, h: World, th: MTxn, nh: nat, feed: Feed, x: MStep,
                       y: MStep, ac: Answer<World>, ah: Answer<World>, sc: MStep, sh: MStep, rc: Served, rh: Served)
    requires Sync(bare, c, tc, nc, h, th, nh, feed) && Runnable(c, h, Current(th))
    requires Succeeds(c, tc, OffAt(feed, tc, nc), x, ac, sc, rc) && Succeeds(h, th, OffAt(feed, th, nh), y, ah, sh, rh)
    requires AgreeAt(bare, c, h, y.concern, y.key, OffAt(feed, th, nc), OffAt(feed, th, nh), ac, ah)
             && CommandPlan(y, h, ah) && CommandPlan(x, c, ac)
    requires IsValidateCreate(y) ==> ah.state == h
    ensures Together(bare, rc, nc + 1, rh, nh + 1, feed)
  {
    CurrentInFlight(tc);
    CurrentInFlight(th);
    SameRoute(tc, th, feed);
    MakePaired(c, tc, h, th, OffAt(feed, tc, nc), OffAt(feed, th, nh), x, y, ac, ah, sc, sh, rc, rh);
    SyncProcess(bare, c, tc, nc, h, th, nh, feed, x, y, ac, ah, sc, sh, rc.fate, rh.fate);
  }

  lemma ProcessAnswers(bare: Bares, c: World, tc: MTxn, nc: nat, h: World, th: MTxn, nh: nat, feed: Feed, x: MStep,
                       y: MStep, inst: Option<Bytes>, freshKey: string)
    requires Sync(bare, c, tc, nc, h, th, nh, feed) && Runnable(c, h, Current(th))
    requires ArrivedIn(tc, x, OffAt(feed, tc, nc)) && ArrivedIn(th, y, OffAt(feed, th, nh))
    ensures AgreeAt(bare, c, h, y.concern, y.key, OffAt(feed, th, nc), OffAt(feed, th, nh),
                    HandleCommand(c, x, inst, OffAt(feed, tc, nc), freshKey),
                    HandleCommand(h, y, inst, OffAt(feed, th, nh), freshKey))
  {
    CurrentInFlight(tc);
    CurrentInFlight(th);
    AlikeStores(bare, c, h, y.concern);
    assert SameStep(x, y);
    ProcessAgrees(bare, c, h, x, y, inst, OffAt(feed, tc, nc), OffAt(feed, th, nh), freshKey);
  }

  lemma ValidateKeeps(w: World, y: MStep, inst: Option<Bytes>, off: CompoundOffset, freshKey: string)
    requires IsValidateCreate(y)
    ensures HandleCommand(w, y, inst, off, freshKey).state == w
  {
  }

  lemma ProcessTogether(bare: Bares, c: World, tc: MTxn, nc: nat, h: World, th: MTxn, nh: nat, feed: Feed,
                        freshKey: string)
    requires Sync(bare, c, tc, nc, h, th, nh, feed) && Runnable(c, h, Current(th)) && freshKey != ""
    ensures Together(bare, Serve(c, tc, OffAt(feed, tc, nc), freshKey), nc + 1,
                     Serve(h, th, OffAt(feed, th, nh), freshKey), nh + 1, feed)
  {
    var offc, offh := OffAt(feed, tc, nc), OffAt(feed, th, nh);
    CurrentInFlight(tc);
    CurrentInFlight(th);
    KeyedAdmission(c, tc, offc);
    KeyedAdmission(h, th, offh);
    AlikeStores(bare, c, h, Current(th).concern);
    var x, y, inst := Arrived(tc, offc), Arrived(th, offh), AdmitAt(h, th, offh).inst;
    assert AdmitAt(c, tc, offc).inst == inst;
    AnsweredIs(c, tc, offc, freshKey);
    AnsweredIs(h, th, offh, freshKey);
    ProcessAnswers(bare, c, tc, nc, h, th, nh, feed, x, y, inst, freshKey);
    if AnsweredOk(Answered(h, th, offh, freshKey)) {
      ProcessOk(bare, c, tc, nc, h, th, nh, feed, x, y, inst, freshKey);
    } else {
      RefusedTogether(bare, c, tc, nc, h, th, nh, feed, freshKey);
    }
  }

  lemma ProcessOk(bare: Bares, c: World, tc: MTxn, nc: nat, h: World, th: MTxn, nh: nat, feed: Feed, x: MStep, y: MStep,
                  inst: Option<Bytes>, freshKey: string)
    requires Sync(bare, c, tc, nc, h, th, nh, feed) && Runnable(c, h, Current(th)) && freshKey != ""
    requires AdmitAt(c, tc, OffAt(feed, tc, nc)) == Admitted(inst)
             && AdmitAt(h, th, OffAt(feed, th, nh)) == Admitted(inst)
    requires x == Arrived(tc, OffAt(feed, tc, nc)) && y == Arrived(th, OffAt(feed, th, nh))
    requires ArrivedIn(tc, x, OffAt(feed, tc, nc)) && ArrivedIn(th, y, OffAt(feed, th, nh))
    requires IsInstanceStoreStep(y) ==> inst.None?
    requires AgreeAt(bare, c, h, y.concern, y.key, OffAt(feed, th, nc), OffAt(feed, th, nh),
                     HandleCommand(c, x, inst, OffAt(feed, tc, nc), freshKey),
                     HandleCommand(h, y, inst, OffAt(feed, th, nh), freshKey))
    requires AnsweredOk(HandleCommand(h, y, inst, OffAt(feed, th, nh), freshKey))
    ensures Together(bare, Serve(c, tc, OffAt(feed, tc, nc), freshKey), nc + 1,
                     Serve(h, th, OffAt(feed, th, nh), freshKey), nh + 1, feed)
  {
    var offc, offh := OffAt(feed, tc, nc), OffAt(feed, th, nh);
    AnsweredIs(c, tc, offc, freshKey);
    AnsweredIs(h, th, offh, freshKey);
    CurrentInFlight(tc);
    CurrentInFlight(th);
    CommandPlans(h, y, inst, offh, freshKey);
    CommandPlans(c, x, inst, offc, freshKey);
    if IsValidateCreate(y) { ValidateKeeps(h, y, inst, offh, freshKey); }
    VisitSucceeds(c, tc, offc, freshKey);
    VisitSucceeds(h, th, offh, freshKey);
    ProcessSuccess(bare, c, tc, nc, h, th, nh, feed, x, y, Answered(c, tc, offc, freshKey),
                   Answered(h, th, offh, freshKey),
                   SettledStep(c, tc, offc, freshKey), SettledStep(h, th, offh, freshKey), Serve(c, tc, offc, freshKey),
                   Serve(h, th, offh, freshKey));
  }

  // STORAGE steps

  predicate KeyedCreate(step: MStep) { IsCreate(step) && GivenKey(step) != "" }

  lemma StorageRefusal(c: World, h: World, x: MStep, y: MStep, offc: CompoundOffset, offh: CompoundOffset,
                       freshKey: string)
    requires SameStep(x, y) && x.system.Storage? && (x.command.Create? || x.command.Delete?) && x.cmpdOffset.Some?
             && freshKey != ""
    ensures SameOutcome(HandleCommand(c, x, None, offc, freshKey).outcome,
                        HandleCommand(h, y, None, offh, freshKey).outcome)
  {
  }

  lemma CreateSuccess(bare: Bares, c: World, tc: MTxn, nc: nat, h: World, th: MTxn, nh: nat, feed: Feed, x: MStep,
                      y: MStep, i: Instance, ac: Answer<World>, ah: Answer<World>, sc: MStep, sh: MStep, rc: Served,
                      rh: Served)
    requires Sync(bare, c, tc, nc, h, th, nh, feed) && Current(th).system.Storage? && Current(th).command.Create?
    requires Succeeds(c, tc, OffAt(feed, tc, nc), x, ac, sc, rc) && Succeeds(h, th, OffAt(feed, th, nh), y, ah, sh, rh)
    requires SameOutcome(ac.outcome, ah.outcome) && IsConcern(y.concern) && InstKey(i) == KeyAt(feed, th)
    requires CreateAnswer(c, x, KeyAt(feed, th), i, ac) && CreateAnswer(h, y, KeyAt(feed, th), i, ah)
    ensures Together(bare, rc, nc + 1, rh, nh + 1, feed)
  {
    CurrentInFlight(tc);
    CurrentInFlight(th);
    MakePaired(c, tc, h, th, OffAt(feed, tc, nc), OffAt(feed, th, nh), x, y, ac, ah, sc, sh, rc, rh);
    SyncCreate(bare, c, tc, nc, h, th, nh, feed, x, y, i, ac, ah, sc, sh, rc.fate, rh.fate);
  }

  lemma DeleteSuccess(bare: Bares, c: World, tc: MTxn, nc: nat, h: World, th: MTxn, nh: nat, feed: Feed, x: MStep,
                      y: MStep, ac: Answer<World>, ah: Answer<World>, sc: MStep, sh: MStep, rc: Served, rh: Served)
    requires Sync(bare, c, tc, nc, h, th, nh, feed) && Current(th).system.Storage? && Current(th).command.Delete?
    requires Succeeds(c, tc, OffAt(feed, tc, nc), x, ac, sc, rc) && Succeeds(h, th, OffAt(feed, th, nh), y, ah, sh, rh)
    requires SameOutcome(ac.outcome, ah.outcome) && IsConcern(y.concern) && DeleteAnswer(c, x, ac)
             && DeleteAnswer(h, y, ah)
    ensures Together(bare, rc, nc + 1, rh, nh + 1, feed)
  {
    CurrentInFlight(tc);
    CurrentInFlight(th);
    MakePaired(c, tc, h, th, OffAt(feed, tc, nc), OffAt(feed, th, nh), x, y, ac, ah, sc, sh, rc, rh);
    SyncDelete(bare, c, tc, nc, h, th, nh, feed, x, y, ac, ah, sc, sh, rc.fate, rh.fate);
  }

  lemma CreateOk(bare: Bares, c: World, tc: MTxn, nc: nat, h: World, th: MTxn, nh: nat, feed: Feed, x: MStep, y: MStep)
    requires Sync(bare, c, tc, nc, h, th, nh, feed) && Current(th).system.Storage? && !KeyedCreate(Current(th))
             && Current(th).command.Create?
    requires AdmitAt(c, tc, OffAt(feed, tc, nc)) == Admitted(None)
             && AdmitAt(h, th, OffAt(feed, th, nh)) == Admitted(None)
    requires x == Arrived(tc, OffAt(feed, tc, nc)) && y == Arrived(th, OffAt(feed, th, nh))
    requires ArrivedIn(tc, x, OffAt(feed, tc, nc)) && ArrivedIn(th, y, OffAt(feed, th, nh))
    requires SameOutcome(HandleCommand(c, x, None, OffAt(feed, tc, nc), KeyAt(feed, th)).outcome,
                         HandleCommand(h, y, None, OffAt(feed, th, nh), KeyAt(feed, th)).outcome)
    requires AnsweredOk(HandleCommand(h, y, None, OffAt(feed, th, nh), KeyAt(feed, th)))
    ensures Together(bare, Serve(c, tc, OffAt(feed, tc, nc), KeyAt(feed, th)), nc + 1,
                     Serve(h, th, OffAt(feed, th, nh), KeyAt(feed, th)), nh + 1, feed)
  {
    var offc, offh, key := OffAt(feed, tc, nc), OffAt(feed, th, nh), KeyAt(feed, th);
    AnsweredIs(c, tc, offc, key);
    AnsweredIs(h, th, offh, key);
    CurrentInFlight(tc);
    CurrentInFlight(th);
    VisitSucceeds(c, tc, offc, key);
    VisitSucceeds(h, th, offh, key);
    CreateAnswers(c, x, offc, key);
    CreateAnswers(h, y, offh, key);
    CreateSuccess(bare, c, tc, nc, h, th, nh, feed, x, y, WithKey(PayloadInst(y.payload.value).value, key),
                  Answered(c, tc, offc, key), Answered(h, th, offh, key),
                  SettledStep(c, tc, offc, key), SettledStep(h, th, offh, key), Serve(c, tc, offc, key),
                  Serve(h, th, offh, key));
  }

  lemma DeleteOk(bare: Bares, c: World, tc: MTxn, nc: nat, h: World, th: MTxn, nh: nat, feed: Feed, x: MStep, y: MStep)
    requires Sync(bare, c, tc, nc, h, th, nh, feed) && Current(th).system.Storage? && !KeyedCreate(Current(th))
             && Current(th).command.Delete?
    requires AdmitAt(c, tc, OffAt(feed, tc, nc)) == Admitted(None)
             && AdmitAt(h, th, OffAt(feed, th, nh)) == Admitted(None)
    requires x == Arrived(tc, OffAt(feed, tc, nc)) && y == Arrived(th, OffAt(feed, th, nh))
    requires ArrivedIn(tc, x, OffAt(feed, tc, nc)) && ArrivedIn(th, y, OffAt(feed, th, nh))
    requires SameOutcome(HandleCommand(c, x, None, OffAt(feed, tc, nc), KeyAt(feed, th)).outcome,
                         HandleCommand(h, y, None, OffAt(feed, th, nh), KeyAt(feed, th)).outcome)
    requires AnsweredOk(HandleCommand(h, y, None, OffAt(feed, th, nh), KeyAt(feed, th)))
    ensures Together(bare, Serve(c, tc, OffAt(feed, tc, nc), KeyAt(feed, th)), nc + 1,
                     Serve(h, th, OffAt(feed, th, nh), KeyAt(feed, th)), nh + 1, feed)
  {
    var offc, offh, key := OffAt(feed, tc, nc), OffAt(feed, th, nh), KeyAt(feed, th);
    AnsweredIs(c, tc, offc, key);
    AnsweredIs(h, th, offh, key);
    CurrentInFlight(tc);
    CurrentInFlight(th);
    VisitSucceeds(c, tc, offc, key);
    VisitSucceeds(h, th, offh, key);
    DeleteAnswers(c, x, offc, key);
    DeleteAnswers(h, y, offh, key);
    DeleteSuccess(bare, c, tc, nc, h, th, nh, feed, x, y, Answered(c, tc, offc, key), Answered(h, th, offh, key),
                  SettledStep(c, tc, offc, key), SettledStep(h, th, offh, key), Serve(c, tc, offc, key),
                  Serve(h, th, offh, key));
  }

  lemma StorageTogether(bare: Bares, c: World, tc: MTxn, nc: nat, h: World, th: MTxn, nh: nat, feed: Feed)
    requires Sync(bare, c, tc, nc, h, th, nh, feed) && Current(th).system.Storage?
             && (Current(th).key != "" || Current(th).command.Create?)
    requires !KeyedCreate(Current(th))
    ensures Together(bare, Serve(c, tc, OffAt(feed, tc, nc), KeyAt(feed, th)), nc + 1,
                     Serve(h, th, OffAt(feed, th, nh), KeyAt(feed, th)), nh + 1, feed)
  {
    var offc, offh, key := OffAt(feed, tc, nc), OffAt(feed, th, nh), KeyAt(feed, th);
    CurrentInFlight(tc);
    CurrentInFlight(th);
    KeyedAdmission(c, tc, offc);
    KeyedAdmission(h, th, offh);
    var x, y := Arrived(tc, offc), Arrived(th, offh);
    AnsweredIs(c, tc, offc, key);
    AnsweredIs(h, th, offh, key);
    StorageRefusal(c, h, x, y, offc, offh, key);
    if AnsweredOk(Answered(h, th, offh, key)) {
      if y.command.Create? { CreateOk(bare, c, tc, nc, h, th, nh, feed, x, y);
                             } else { DeleteOk(bare, c, tc, nc, h, th, nh, feed, x, y); }
    } else {
      RefusedTogether(bare, c, tc, nc, h, th, nh, feed, key);
    }
  }

  // ---------- a create under a given key: two visits in each run ----------

  /** The stored instance waits for its refresh. `c0` and `h0` are the worlds before it was stored. */
  ghost predicate Half(bare: Bares, c0: World, oc: CompoundOffset, c: World, tc: MTxn, nc: nat, h0: World,
                       oh: CompoundOffset, h: World, th: MTxn, nh: nat, i: Instance, feed: Feed) {
    && Increasing(feed) && InFlight(tc) && InFlight(th) && SameTransaction(tc, th) && DbKeyed(c.db) && DbKeyed(h.db)
    && SamePending(Pending(tc), Pending(th)) && PlannedAfter(Pending(th)) && KeyGiven(tc) && KeyGiven(th)
    && Matches(Finished(tc), Finished(th))
    && HalfStep(Current(th), i) && HalfWorld(bare, c0, oc, c, h0, oh, h, Current(th).concern, i)
    && CreateSafe(c0, h0, feed, Current(th).concern, InstKey(i)) && CreatesSafe(c0, h0, feed, Pending(th))
    && Ahead(c, feed, nc) && Ahead(h, feed, nh) && Unused(h0, feed, Creates(Finished(th)))
  }

  predicate HalfStep(y: MStep, i: Instance) {
    && y.system.Process? && y.command.RefreshInstance? && IsConcern(y.concern) && IsA(i, y.concern)
    && y.key == InstKey(i) && y.key != "" && y.payload == Some(Packed(i, None))
  }

  ghost predicate HalfWorld(bare: Bares, c0: World, oc: CompoundOffset, c: World, h0: World, oh: CompoundOffset,
                            h: World, n: string, i: Instance) {
    && Alike(bare, c0, h0) && SameLine(oc, oh) && Newest(c0.db, n, oc) && Newest(h0.db, n, oh)
    && c == c0.(db := Write(c0.db, n, InstKey(i), i, None, oc))
    && h == h0.(db := Write(h0.db, n, InstKey(i), i, None, oh))
  }

  /** Both refreshes find the same related bytes. */
  lemma HalfRelated(bare: Bares, c0: World, h0: World, n: string, k: string)
    requires Alike(bare, c0, h0) && !LostRelated(c0, h0, n, k)
    ensures GetRelated(StoreOf(c0, n), k) == GetRelated(StoreOf(h0, n), k)
  {
    AlikeStores(bare, c0, h0, n);
  }

  lemma GivenRefresh(w: World, step: MStep, i: Instance, off: CompoundOffset, freshKey: string)
    requires HalfStep(step, i) && InOrder(StoreOf(w, step.concern), step.key, off)
    ensures var a, rel := HandleCommand(w, step, None, off, freshKey), GetRelated(StoreOf(w, step.concern), step.key);
            && a.outcome == Outcome(Some(OkResult(Some(Packed(i, rel)))), [])
            && a.state == WithStore(w, step.concern, StoreOf(w, step.concern)[step.key := Rec(i, rel, off)])
  {
  }

  lemma WrittenCold(bare: Bares, sc: MStore, sh: MStore, db: MDb, after: MDb, m: string, n: string, k: string,
                    i: Instance, o: CompoundOffset)
    requires ColdStore(bare, sc, sh, db, m) && WrittenAt(db, after, n, k, i, o) && (m == n ==> k in sc)
    ensures ColdStore(bare, sc, sh, after, m)
  {
    forall j | j in sh && j !in sc ensures Kept(bare, after, m, j, sh[j]) {
      assert Lookup(after, m, j) == Lookup(db, m, j);
    }
  }

  lemma PutBoth(bare: Bares, sc: MStore, sh: MStore, db: MDb, m: string, k: string, rc: Rec<Instance, Related>,
                rh: Rec<Instance, Related>)
    requires ColdStore(bare, sc, sh, db, m) && SameRec(rc, rh)
    ensures ColdStore(bare, sc[k := rc], sh[k := rh], db, m)
  {
  }

  lemma HalfAlike(bare: Bares, c0: World, oc: CompoundOffset, c: World, h0: World, oh: CompoundOffset, h: World,
                  n: string, i: Instance, rel: Option<Related>, offc: CompoundOffset, offh: CompoundOffset)
    requires HalfWorld(bare, c0, oc, c, h0, oh, h, n, i) && IsConcern(n) && InstKey(i) != ""
    ensures Alike(bare, Put(c, n, i, rel, offc), Put(h, n, i, rel, offh))
  {
    var k, rc, rh := InstKey(i), Rec(i, rel, offc), Rec(i, rel, offh);
    WriteIs(c0.db, n, k, i, oc);
    WriteSame(c0.db, h0.db, n, k, i, oc, oh);
    var sc, sh := StoreOf(c, n)[k := rc], StoreOf(h, n)[k := rh];
    var c', h' := WithStore(c, n, sc), WithStore(h, n, sh);
    WithStoreOf(c, n, sc);
    WithStoreOf(h, n, sh);
    forall m | IsConcern(m) ensures ColdStore(bare, StoreOf(c', m), StoreOf(h', m), c.db, m) && "" !in StoreOf(h', m) {
      AlikeStores(bare, c0, h0, m);
      PutBoth(bare, StoreOf(c0, n), StoreOf(h0, n), c0.db, n, k, rc, rh);
      WrittenCold(bare, StoreOf(c', m), StoreOf(h', m), c0.db, c.db, m, n, k, i, oc);
    }
    StoresAlike(bare, c', h');
  }

  lemma StoresAlike(bare: Bares, c: World, h: World)
    requires SameDb(c.db, h.db) && forall m :: IsConcern(m) ==>
                                                 ColdStore(bare, StoreOf(c, m), StoreOf(h, m), c.db, m)
                                                 && "" !in StoreOf(h, m)
    ensures Alike(bare, c, h)
  {
    assert IsConcern(CHARACTER) && IsConcern(PLAYER);
    assert CHARACTER != PLAYER by { assert |CHARACTER| != |PLAYER|; }
    assert StoreOf(c, PLAYER) == c.players && StoreOf(h, PLAYER) == h.players;
  }

  /** The answer to a create under a given key. */
  lemma KeyedAnswers(w: World, y: MStep, off: CompoundOffset, f: string)
    requires KeyedCreate(y) && y.cmpdOffset.Some? && y.payload.Some? && y.payload.value.Inst?
             && AnsweredOk(HandleCommand(w, y, None, off, f))
    ensures var i, a := y.payload.value.inst, HandleCommand(w, y, None, off, f);
            && IsConcern(y.concern) && IsA(i, y.concern) && CreateAnswer(w, y, InstKey(i), i, a)
            && a.outcome.addSteps[0] == ProcessStep(y.concern, RefreshInstance, InstKey(i), Some(Packed(i, None)))
  {
  }

  /** What both creates leave: the instance stored and its refresh next. */
  ghost predicate KeyedPair(c: World, h: World, x: MStep, y: MStep, i: Instance, ac: Answer<World>, ah: Answer<World>) {
    && IsConcern(y.concern) && IsA(i, y.concern) && y.payload == Some(Inst(i)) && InstKey(i) != "" && y.system.Storage?
    && y.command.Create?
    && CreateAnswer(c, x, InstKey(i), i, ac) && CreateAnswer(h, y, InstKey(i), i, ah)
    && ah.outcome.addSteps[0] == ProcessStep(y.concern, RefreshInstance, InstKey(i), Some(Packed(i, None)))
    && DbKeyed(ac.state.db) && DbKeyed(ah.state.db)
  }

  lemma HalfTxns(c: World, tc: MTxn, nc: nat, h: World, th: MTxn, nh: nat, feed: Feed, x: MStep, y: MStep, i: Instance,
                 ac: Answer<World>, ah: Answer<World>, sc: MStep, sh: MStep, fc: Fate<Bytes>, fh: Fate<Bytes>,
                 offc: CompoundOffset, offh: CompoundOffset)
    requires SyncTxns(c, tc, h, th) && Paired(tc, th, x, y, ac, ah, sc, sh, fc, fh, offc, offh)
             && KeyedPair(c, h, x, y, i, ac, ah)
    ensures fc.Forwarded? && fh.Forwarded? && InFlight(fc.txn) && InFlight(fh.txn) && SameTransaction(fc.txn, fh.txn)
    ensures SamePending(Pending(fc.txn), Pending(fh.txn)) && PlannedAfter(Pending(fh.txn)) && KeyGiven(fc.txn)
            && KeyGiven(fh.txn)
    ensures Matches(Finished(fc.txn), Finished(fh.txn)) && HalfStep(Current(fh.txn), i)
            && Current(fh.txn).concern == y.concern && SameKind(sh, y)
  {
    CurrentInFlight(tc);
    CurrentInFlight(th);
    var add := ah.outcome.addSteps;
    PairedDone(tc, th, x, y, ac, ah, sc, sh, fc, fh, offc, offh);
    BothSucceed(tc, fc, sc, offc, th, fh, sh, offh, add);
    CurrentInFlight(fc.txn);
    CurrentInFlight(fh.txn);
    PlannedNext(Pending(th), add, sh, offh);
    KeyGivenNext(tc, fc, sc, add, offc);
    KeyGivenNext(th, fh, sh, add, offh);
  }

  lemma HalfCreate(bare: Bares, c: World, tc: MTxn, nc: nat, h: World, th: MTxn, nh: nat, feed: Feed, x: MStep,
                   y: MStep, i: Instance, ac: Answer<World>, ah: Answer<World>, sc: MStep, sh: MStep, fc: Fate<Bytes>,
                   fh: Fate<Bytes>)
    requires Sync(bare, c, tc, nc, h, th, nh, feed) && KeyedPair(c, h, x, y, i, ac, ah)
    requires Paired(tc, th, x, y, ac, ah, sc, sh, fc, fh, OffAt(feed, th, nc), OffAt(feed, th, nh))
    ensures fc.Forwarded? && fh.Forwarded?
    ensures Half(bare, c, x.cmpdOffset.value, ac.state, fc.txn, nc + 1, h, y.cmpdOffset.value, ah.state, fh.txn, nh + 1,
                 i, feed)
  {
    var offc, offh := OffAt(feed, th, nc), OffAt(feed, th, nh);
    CurrentInFlight(tc);
    CurrentInFlight(th);
    HalfTxns(c, tc, nc, h, th, nh, feed, x, y, i, ac, ah, sc, sh, fc, fh, offc, offh);
    CreateWorld(c, y.concern, InstKey(i), i, x.cmpdOffset.value, feed, nc);
    CreateWorld(h, y.concern, InstKey(i), i, y.cmpdOffset.value, feed, nh);
    assert Current(th) in Pending(th) && GivenKey(Current(th)) == InstKey(i);
    StorageSafe(c, h, c, h, feed, th, fh, sh, ah.outcome.addSteps, offh);
    CreatesLast(Finished(th), sh);
  }

  function Put(w: World, n: string, i: Instance, rel: Option<Related>, off: CompoundOffset): World {
    WithStore(w, n, StoreOf(w, n)[InstKey(i) := Rec(i, rel, off)])
  }

  lemma PutOnly(w: World, n: string, i: Instance, rel: Option<Related>, off: CompoundOffset)
    requires IsConcern(n)
    ensures var w2 := Put(w, n, i, rel, off);
            && StoreOf(w2, n) == StoreOf(w, n)[InstKey(i) := Rec(i, rel, off)] && w2.db == w.db
            && OnlyAt(StoreOf(w, n), StoreOf(w2, n), InstKey(i), off) && forall m ::
              m != n ==> StoreOf(w2, m) == StoreOf(w, m)
  {
    WithStoreOf(w, n, StoreOf(w, n)[InstKey(i) := Rec(i, rel, off)]);
  }

  lemma PutAhead(w: World, n: string, i: Instance, rel: Option<Related>, feed: Feed, k: nat)
    requires Increasing(feed) && Ahead(w, feed, k) && IsConcern(n)
    ensures Ahead(Put(w, n, i, rel, feed.offs(n, InstKey(i), k)), feed, k + 1)
  {
    var off := feed.offs(n, InstKey(i), k);
    PutOnly(w, n, i, rel, off);
    AheadAfter(w, Put(w, n, i, rel, off), n, InstKey(i), InstKey(i), feed, k);
  }

  lemma HalfShrinks(c0: World, c: World, h0: World, h: World, n: string, i: Instance, rel: Option<Related>,
                    offc: CompoundOffset, offh: CompoundOffset)
    requires IsConcern(n) && c == c0.(db := c.db) && h == h0.(db := h.db)
    ensures Shrinks(c0, h0, Put(c, n, i, rel, offc), Put(h, n, i, rel, offh))
  {
    PutOnly(c, n, i, rel, offc);
    PutOnly(h, n, i, rel, offh);
    forall m ensures StoreOf(c, m) == StoreOf(c0, m) && StoreOf(h, m) == StoreOf(h0, m) {}
    ProcessShrinks(c0, h0, Put(c, n, i, rel, offc), Put(h, n, i, rel, offh), n, InstKey(i), offc, offh);
  }

  lemma HalfKeys(h0: World, h: World, n: string, i: Instance, rel: Option<Related>, o: CompoundOffset,
                 off: CompoundOffset, feed: Feed, created: nat)
    requires Unused(h0, feed, created) && h == h0.(db := Write(h0.db, n, InstKey(i), i, None, o)) && IsConcern(n)
    requires forall m: nat :: feed.keys(m) != InstKey(i)
    ensures Unused(Put(h, n, i, rel, off), feed, created)
  {
    PutOnly(h, n, i, rel, off);
    WriteIs(h0.db, n, InstKey(i), i, o);
    forall m, j ensures j in StoreOf(Put(h, n, i, rel, off), m) ==> j in StoreOf(h0, m) || j == InstKey(i) {
      assert StoreOf(h, m) == StoreOf(h0, m);
    }
    HalfUnused(h0, h, Put(h, n, i, rel, off), n, InstKey(i), i, o, feed, created);
  }

  lemma HalfUnused(h0: World, h: World, h2: World, n: string, k: string, i: Instance, o: CompoundOffset, feed: Feed,
                   created: nat)
    requires Unused(h0, feed, created) && WrittenAt(h0.db, h.db, n, k, i, o) && h2.db == h.db
    requires forall m: nat :: feed.keys(m) != k
    requires forall m, j :: j in StoreOf(h2, m) ==> j in StoreOf(h0, m) || j == k
    ensures Unused(h2, feed, created)
  {
    forall m: nat, j | m >= created ensures feed.keys(m) !in StoreOf(h2, j) && Lookup(h2.db, j, feed.keys(m)).None? {
      UnusedKey(h0, feed, created, m, j);
    }
  }

  lemma HalfWorlds(bare: Bares, c0: World, oc: CompoundOffset, c: World, nc: nat, h0: World, oh: CompoundOffset,
                   h: World, nh: nat, n: string, i: Instance, rel: Option<Related>, feed: Feed, created: nat, x: MStep,
                   y: MStep)
    requires Increasing(feed) && HalfWorld(bare, c0, oc, c, h0, oh, h, n, i) && IsConcern(n) && InstKey(i) != ""
             && CreateSafe(c0, h0, feed, n, InstKey(i))
    requires Ahead(c, feed, nc) && Ahead(h, feed, nh) && Unused(h0, feed, created) && DbKeyed(c.db) && DbKeyed(h.db)
    requires x.system.Process? && y.system.Process?
    ensures var offc, offh := feed.offs(n, InstKey(i), nc), feed.offs(n, InstKey(i), nh);
            SyncWorlds(bare, Put(c, n, i, rel, offc), nc + 1, Put(h, n, i, rel, offh), nh + 1, feed, x, y, created)
  {
    var offc, offh := feed.offs(n, InstKey(i), nc), feed.offs(n, InstKey(i), nh);
    HalfAlike(bare, c0, oc, c, h0, oh, h, n, i, rel, offc, offh);
    PutAhead(c, n, i, rel, feed, nc);
    PutAhead(h, n, i, rel, feed, nh);
    HalfKeys(h0, h, n, i, rel, oh, offh, feed, created);
    PutOnly(c, n, i, rel, offc);
    PutOnly(h, n, i, rel, offh);
  }

  /** Both runs have refreshed the stored instance. */
  ghost predicate Refreshed(c: World, tc: MTxn, nc: nat, h: World, th: MTxn, nh: nat, i: Instance, feed: Feed,
                            rel: Option<Related>, ac: Answer<World>, ah: Answer<World>)
    requires InRange(tc) && InRange(th)
  {
    && ac.outcome == ah.outcome == Outcome(Some(OkResult(Some(Packed(i, rel)))), [])
    && ac.state == Put(c, Current(th).concern, i, rel, OffAt(feed, th, nc))
    && ah.state == Put(h, Current(th).concern, i, rel, OffAt(feed, th, nh))
  }

  lemma HalfSync(bare: Bares, c0: World, oc: CompoundOffset, c: World, tc: MTxn, nc: nat, h0: World, oh: CompoundOffset,
                 h: World, th: MTxn, nh: nat, i: Instance, feed: Feed, rel: Option<Related>, x: MStep, y: MStep,
                 ac: Answer<World>, ah: Answer<World>, sc: MStep, sh: MStep, fc: Fate<Bytes>, fh: Fate<Bytes>)
    requires Half(bare, c0, oc, c, tc, nc, h0, oh, h, th, nh, i, feed)
             && Refreshed(c, tc, nc, h, th, nh, i, feed, rel, ac, ah)
    requires Paired(tc, th, x, y, ac, ah, sc, sh, fc, fh, OffAt(feed, tc, nc), OffAt(feed, th, nh))
    ensures fc.Forwarded? <==> fh.Forwarded?
    ensures fc.Forwarded? ==> Sync(bare, ac.state, fc.txn, nc + 1, ah.state, fh.txn, nh + 1, feed)
    ensures fc.Completed? ==> SameEnd(bare, Ending(fc, ac.state, 1), Ending(fh, ah.state, 1))
  {
    var offc, offh, n := OffAt(feed, tc, nc), OffAt(feed, th, nh), Current(th).concern;
    CurrentInFlight(tc);
    CurrentInFlight(th);
    PairedDone(tc, th, x, y, ac, ah, sc, sh, fc, fh, offc, offh);
    BothSucceed(tc, fc, sc, offc, th, fh, sh, offh, []);
    if fc.Forwarded? {
      HalfShrinks(c0, c, h0, h, n, i, rel, offc, offh);
      HalfNext(c0, h0, ac.state, ah.state, feed, tc, fc, sc, offc, th, fh, sh, offh);
      HalfWorlds(bare, c0, oc, c, nc, h0, oh, h, nh, n, i, rel, feed, Creates(Finished(th)), Current(fc.txn),
                 Current(fh.txn));
      CreatesLast(Finished(th), sh);
    } else {
      HalfAlike(bare, c0, oc, c, h0, oh, h, n, i, rel, offc, offh);
    }
  }

  /** The step behind the refresh. */
  lemma HalfNext(c0: World, h0: World, c2: World, h2: World, feed: Feed, tc: MTxn, fc: Fate<Bytes>, sc: MStep,
                 offc: CompoundOffset, th: MTxn, fh: Fate<Bytes>, sh: MStep, offh: CompoundOffset)
    requires SuccessOf(tc, fc, sc, [], offc) && SuccessOf(th, fh, sh, [], offh) && fc.Forwarded? && fh.Forwarded?
    requires SamePending(Pending(tc), Pending(th)) && PlannedAfter(Pending(th))
    requires Current(th).system.Process? && Current(th).command.RefreshInstance? && sc.result.value.key == ""
             && sh.result.value.key == ""
    requires CreatesSafe(c0, h0, feed, Pending(th)) && Shrinks(c0, h0, c2, h2)
    ensures PlannedAfter(Pending(fh.txn)) && FrontOk(c2, h2, Current(fc.txn), Current(fh.txn))
            && CreatesSafe(c2, h2, feed, Pending(fh.txn))
    ensures Current(fc.txn).system.Process? && Current(fh.txn).system.Process? && KeyGiven(fc.txn) && KeyGiven(fh.txn)
  {
    CurrentInFlight(tc);
    CurrentInFlight(th);
    CurrentInFlight(fc.txn);
    CurrentInFlight(fh.txn);
    var p := Pending(th);
    assert [] + p[1..] == p[1..] && [] + Pending(tc)[1..] == p[1..];
    PlannedNext(p, [], sh, offh);
    PlannedFront(c2, h2, p[1], sc, offc, sh, offh);
    SafeNext(c0, h0, c2, h2, feed, p, [], sh, offh);
    KeyGivenNext(tc, fc, sc, [], offc);
    KeyGivenNext(th, fh, sh, [], offh);
  }

  lemma HalfRefresh(bare: Bares, c0: World, oc: CompoundOffset, c: World, tc: MTxn, nc: nat, h0: World,
                    oh: CompoundOffset, h: World, th: MTxn, nh: nat, i: Instance, feed: Feed, freshKey: string)
    requires Half(bare, c0, oc, c, tc, nc, h0, oh, h, th, nh, i, feed)
    ensures Together(bare, Serve(c, tc, OffAt(feed, tc, nc), freshKey), nc + 1,
                     Serve(h, th, OffAt(feed, th, nh), freshKey), nh + 1, feed)
  {
    var offc, offh, n := OffAt(feed, tc, nc), OffAt(feed, th, nh), Current(th).concern;
    CurrentInFlight(tc);
    CurrentInFlight(th);
    KeyedAdmission(c, tc, offc);
    KeyedAdmission(h, th, offh);
    AnsweredIs(c, tc, offc, freshKey);
    AnsweredIs(h, th, offh, freshKey);
    GivenRefresh(c, Arrived(tc, offc), i, offc, freshKey);
    GivenRefresh(h, Arrived(th, offh), i, offh, freshKey);
    HalfRelated(bare, c0, h0, n, InstKey(i));
    assert StoreOf(c, n) == StoreOf(c0, n) && StoreOf(h, n) == StoreOf(h0, n);
    VisitSucceeds(c, tc, offc, freshKey);
    VisitSucceeds(h, th, offh, freshKey);
    HalfTogether(bare, c0, oc, c, tc, nc, h0, oh, h, th, nh, i, feed, GetRelated(StoreOf(h, n), InstKey(i)),
                 Arrived(tc, offc), Arrived(th, offh),
                 Answered(c, tc, offc, freshKey), Answered(h, th, offh, freshKey), SettledStep(c, tc, offc, freshKey),
                 SettledStep(h, th, offh, freshKey),
                 Serve(c, tc, offc, freshKey), Serve(h, th, offh, freshKey));
  }

  lemma HalfTogether(bare: Bares, c0: World, oc: CompoundOffset, c: World, tc: MTxn, nc: nat, h0: World,
                     oh: CompoundOffset, h: World, th: MTxn, nh: nat, i: Instance, feed: Feed, rel: Option<Related>,
                     x: MStep, y: MStep, ac: Answer<World>, ah: Answer<World>, sc: MStep, sh: MStep, rc: Served,
                     rh: Served)
    requires Half(bare, c0, oc, c, tc, nc, h0, oh, h, th, nh, i, feed)
             && Refreshed(c, tc, nc, h, th, nh, i, feed, rel, ac, ah)
    requires Succeeds(c, tc, OffAt(feed, tc, nc), x, ac, sc, rc) && Succeeds(h, th, OffAt(feed, th, nh), y, ah, sh, rh)
    ensures Together(bare, rc, nc + 1, rh, nh + 1, feed)
  {
    MakePaired(c, tc, h, th, OffAt(feed, tc, nc), OffAt(feed, th, nh), x, y, ac, ah, sc, sh, rc, rh);
    HalfSync(bare, c0, oc, c, tc, nc, h0, oh, h, th, nh, i, feed, rel, x, y, ac, ah, sc, sh, rc.fate, rh.fate);
  }

  /** Both creates are refused, or store the instance. */
  lemma KeyedTogether(bare: Bares, c: World, tc: MTxn, nc: nat, h: World, th: MTxn, nh: nat,
                      feed: Feed) returns (i: Instance, oc: CompoundOffset, oh: CompoundOffset)
    requires Sync(bare, c, tc, nc, h, th, nh, feed) && KeyedCreate(Current(th))
    ensures var rc, rh := Serve(c, tc, OffAt(feed, tc, nc),
                                KeyAt(feed, th)), Serve(h, th, OffAt(feed, th, nh), KeyAt(feed, th));
            || (!rc.fate.Forwarded? && Together(bare, rc, nc + 1, rh, nh + 1, feed))
            || (rc.fate.Forwarded? && rh.fate.Forwarded?
                && Half(bare, c, oc, rc.world, rc.fate.txn, nc + 1, h, oh, rh.world, rh.fate.txn, nh + 1, i, feed))
  {
    var offc, offh, key := OffAt(feed, tc, nc), OffAt(feed, th, nh), KeyAt(feed, th);
    CurrentInFlight(tc);
    CurrentInFlight(th);
    KeyedAdmission(c, tc, offc);
    KeyedAdmission(h, th, offh);
    var x, y := Arrived(tc, offc), Arrived(th, offh);
    AnsweredIs(c, tc, offc, key);
    AnsweredIs(h, th, offh, key);
    StorageRefusal(c, h, x, y, offc, offh, key);
    i, oc, oh := y.payload.value.inst, x.cmpdOffset.value, y.cmpdOffset.value;
    if AnsweredOk(Answered(h, th, offh, key)) {
      KeyedOk(bare, c, tc, nc, h, th, nh, feed, x, y);
    } else {
      RefusedTogether(bare, c, tc, nc, h, th, nh, feed, key);
    }
  }

  lemma KeyedOk(bare: Bares, c: World, tc: MTxn, nc: nat, h: World, th: MTxn, nh: nat, feed: Feed, x: MStep, y: MStep)
    requires Sync(bare, c, tc, nc, h, th, nh, feed) && KeyedCreate(Current(th))
    requires AdmitAt(c, tc, OffAt(feed, tc, nc)) == Admitted(None)
             && AdmitAt(h, th, OffAt(feed, th, nh)) == Admitted(None)
    requires x == Arrived(tc, OffAt(feed, tc, nc)) && y == Arrived(th, OffAt(feed, th, nh))
    requires ArrivedIn(tc, x, OffAt(feed, tc, nc)) && ArrivedIn(th, y, OffAt(feed, th, nh))
    requires SameOutcome(HandleCommand(c, x, None, OffAt(feed, tc, nc), KeyAt(feed, th)).outcome,
                         HandleCommand(h, y, None, OffAt(feed, th, nh), KeyAt(feed, th)).outcome)
    requires AnsweredOk(HandleCommand(h, y, None, OffAt(feed, th, nh), KeyAt(feed, th)))
    ensures var rc, rh := Serve(c, tc, OffAt(feed, tc, nc),
                                KeyAt(feed, th)), Serve(h, th, OffAt(feed, th, nh), KeyAt(feed, th));
            && rc.fate.Forwarded? && rh.fate.Forwarded? && y.payload.Some? && y.payload.value.Inst?
            && x.cmpdOffset.Some? && y.cmpdOffset.Some?
            && Half(bare, c, x.cmpdOffset.value, rc.world, rc.fate.txn, nc + 1, h, y.cmpdOffset.value, rh.world,
                    rh.fate.txn, nh + 1, y.payload.value.inst, feed)
  {
    var offc, offh, key := OffAt(feed, tc, nc), OffAt(feed, th, nh), KeyAt(feed, th);
    AnsweredIs(c, tc, offc, key);
    AnsweredIs(h, th, offh, key);
    CurrentInFlight(tc);
    CurrentInFlight(th);
    VisitSucceeds(c, tc, offc, key);
    VisitSucceeds(h, th, offh, key);
    KeyedAnswers(c, x, offc, key);
    KeyedAnswers(h, y, offh, key);
    KeyedSuccess(bare, c, tc, nc, h, th, nh, feed, x, y, y.payload.value.inst, Answered(c, tc, offc, key),
                 Answered(h, th, offh, key),
                 SettledStep(c, tc, offc, key), SettledStep(h, th, offh, key), Serve(c, tc, offc, key),
                 Serve(h, th, offh, key));
  }

  lemma KeyedSuccess(bare: Bares, c: World, tc: MTxn, nc: nat, h: World, th: MTxn, nh: nat, feed: Feed, x: MStep,
                     y: MStep, i: Instance, ac: Answer<World>, ah: Answer<World>, sc: MStep, sh: MStep, rc: Served,
                     rh: Served)
    requires Sync(bare, c, tc, nc, h, th, nh, feed) && KeyedPair(c, h, x, y, i, ac, ah)
             && SameOutcome(ac.outcome, ah.outcome)
    requires Succeeds(c, tc, OffAt(feed, tc, nc), x, ac, sc, rc) && Succeeds(h, th, OffAt(feed, th, nh), y, ah, sh, rh)
    ensures rc.fate.Forwarded? && rh.fate.Forwarded?
    ensures Half(bare, c, x.cmpdOffset.value, rc.world, rc.fate.txn, nc + 1, h, y.cmpdOffset.value, rh.world,
                 rh.fate.txn, nh + 1, i, feed)
  {
    MakePaired(c, tc, h, th, OffAt(feed, tc, nc), OffAt(feed, th, nh), x, y, ac, ah, sc, sh, rc, rh);
    CurrentInFlight(tc);
    CurrentInFlight(th);
    HalfCreate(bare, c, tc, nc, h, th, nh, feed, x, y, i, ac, ah, sc, sh, rc.fate, rh.fate);
  }

  // ---------- a detour of the cold run ----------

  /** The run from here ends as the run from there, which is shorter. */
  ghost predicate Leads(w: World, txn: MTxn, n: nat, w': World, txn': MTxn, n': nat, feed: Feed) {
    && InFlight(txn) && InFlight(txn') && DbKeyed(w.db) && DbKeyed(w'.db) && Weight(w', txn') < Weight(w, txn)
    && RunAlone(w, txn, feed, n).fate == RunAlone(w', txn', feed, n').fate
    && RunAlone(w, txn, feed, n).world == RunAlone(w', txn', feed, n').world
    && SameTransaction(txn, txn')
  }

  lemma RunOne(w: World, txn: MTxn, feed: Feed, n: nat)
    requires InFlight(txn) && DbKeyed(w.db)
    ensures var r, e := Serve(w, txn, OffAt(feed, txn, n), KeyAt(feed, txn)), RunAlone(w, txn, feed, n);
            if r.fate.Forwarded? then Leads(w, txn, n, r.world, r.fate.txn, n + 1, feed)
            else e.fate == r.fate && e.world == r.world
  {
    var off, key := OffAt(feed, txn, n), KeyAt(feed, txn);
    ServeLawful(w, txn, off, key);
    if Serve(w, txn, off, key).fate.Forwarded? {
      WeightDrops(w, txn, off, key);
    }
  }

  lemma LeadsOn(w: World, txn: MTxn, n: nat, w1: World, txn1: MTxn, n1: nat, w2: World, txn2: MTxn, n2: nat, feed: Feed)
    requires Leads(w, txn, n, w1, txn1, n1, feed) && Leads(w1, txn1, n1, w2, txn2, n2, feed)
    ensures Leads(w, txn, n, w2, txn2, n2, feed)
  {
  }

  lemma ReadAnswer(w: World, step: MStep, off: CompoundOffset, freshKey: string, rec: Rec<Instance, Related>)
    requires step.system.Storage? && step.command.Read? && step.cmpdOffset.Some? && IsConcern(step.concern)
             && Held(w.db, step.concern, step.key, rec)
    ensures var a := HandleCommand(w, step, None, off, freshKey);
            && AnsweredOk(a) && a.state == w && a.outcome.result.value.payload == Some(Packed(rec.inst, rec.rel))
            && a.outcome.result.value.instance.None?
            && a.outcome.addSteps == [ProcessStep(step.concern, RefreshInstance, step.key,
                                                  Some(Packed(rec.inst, rec.rel)))]
  {
  }

  lemma RefreshAnswer(w: World, step: MStep, off: CompoundOffset, freshKey: string)
    requires step.system.Process? && step.command.RefreshInstance? && IsConcern(step.concern)
             && step.key !in StoreOf(w, step.concern)
    requires step.payload.Some? && step.payload.value.Packed? && IsA(step.payload.value.inst, step.concern)
    requires step.payload.value.rel.Some? ==> RelIsA(step.payload.value.rel.value, step.concern)
    ensures var a, p := HandleCommand(w, step, None, off, freshKey), step.payload.value;
            && AnsweredOk(a) && a.outcome.addSteps == [] && a.outcome.result.value.key == ""
            && a.outcome.result.value.payload == step.payload && a.outcome.result.value.instance.None?
            && a.state == WithStore(w, step.concern, StoreOf(w, step.concern)[step.key := Rec(p.inst, p.rel, off)])
  {
  }

  /** A detour's storage read and refresh, finished, that brought `rec`. */
  predicate BroughtBy(step: MStep, rec: Rec<Instance, Related>) {
    && DoneOk(step) && step.result.value.payload == Some(Packed(rec.inst, rec.rel)) && step.result.value.instance.None?
    && step.payload == if step.command.Read? then None else Some(Packed(rec.inst, rec.rel))
  }

  /** The storage read succeeds and asks for a refresh. */
  lemma DetourRead(w: World, t: MTxn, rec: Rec<Instance, Related>, feed: Feed,
                   n: nat) returns (f: Fate<Bytes>, read: MStep)
    requires InFlight(t) && DbKeyed(w.db) && Current(t).system.Storage? && Current(t).command.Read?
             && Current(t).cmpdOffset.Some? && Current(t).key != "" && Current(t).payload.None?
    requires IsConcern(Current(t).concern) && Held(w.db, Current(t).concern, Current(t).key, rec)
    ensures f == Serve(w, t, OffAt(feed, t, n), KeyAt(feed, t)).fate
            && Serve(w, t, OffAt(feed, t, n), KeyAt(feed, t)).world == w && f.Forwarded?
    ensures SuccessOf(t, f, read,
                      [ProcessStep(Current(t).concern, RefreshInstance, Current(t).key,
                                   Some(Packed(rec.inst, rec.rel)))], OffAt(feed, t, n))
    ensures SameKind(read, Current(t)) && read.key == Current(t).key && BroughtBy(read, rec)
  {
    var off, key := OffAt(feed, t, n), KeyAt(feed, t);
    KeyedAdmission(w, t, off);
    AnsweredIs(w, t, off, key);
    ReadAnswer(w, Arrived(t, off), off, key, rec);
    ServeAdmitted(w, t, off, key);
    f, read := Serve(w, t, off, key).fate, SettledStep(w, t, off, key);
  }

  /** The refresh puts the stored record into the cache. */
  lemma DetourRefresh(w: World, t: MTxn, rec: Rec<Instance, Related>, feed: Feed,
                      n: nat) returns (f: Fate<Bytes>, refresh: MStep)
    requires InFlight(t) && DbKeyed(w.db) && Current(t).system.Process? && Current(t).command.RefreshInstance?
             && Current(t).key != ""
    requires IsConcern(Current(t).concern) && Current(t).key !in StoreOf(w, Current(t).concern)
    requires Current(t).payload == Some(Packed(rec.inst, rec.rel)) && Fitting(rec, Current(t).concern)
    ensures f == Serve(w, t, OffAt(feed, t, n), KeyAt(feed, t)).fate
    ensures Serve(w, t, OffAt(feed, t, n), KeyAt(feed, t)).world ==
              WithStore(w, Current(t).concern,
                        StoreOf(w, Current(t).concern)[Current(t).key := Rec(rec.inst, rec.rel, OffAt(feed, t, n))])
    ensures SuccessOf(t, f, refresh, [], OffAt(feed, t, n))
    ensures SameKind(refresh, Current(t)) && refresh.key == Current(t).key && BroughtBy(refresh, rec)
    ensures refresh.result.value.key == "" && refresh.result.value.payload == Some(Packed(rec.inst, rec.rel))
  {
    var off, key := OffAt(feed, t, n), KeyAt(feed, t);
    KeyedAdmission(w, t, off);
    AnsweredIs(w, t, off, key);
    RefreshAnswer(w, Arrived(t, off), off, key);
    ServeAdmitted(w, t, off, key);
    f, refresh := Serve(w, t, off, key).fate, SettledStep(w, t, off, key);
  }

  /** What three visits of the cold run have done. */
  ghost predicate AfterDetour(tc: MTxn, f: Fate<Bytes>, read: MStep, refresh: MStep, waiting: seq<MStep>,
                              off: CompoundOffset)
    requires InFlight(tc)
  {
    && !f.Failed? && IsDetour(read, refresh) && read.key == Current(tc).key && read.concern == Current(tc).concern
    && (f.Completed? <==> waiting + Pending(tc)[1..] == [])
    && (f.Forwarded? ==> InFlight(f.txn) && Finished(f.txn) == Finished(tc) + [read] + [refresh]
                         && Pending(f.txn) == InheritFirst(waiting + Pending(tc)[1..], refresh, off))
    && (f.Completed? ==> f.txn.forwardSteps == Finished(tc) + [read] + [refresh] && InRange(f.txn))
  }

  lemma ThreeVisits(tc: MTxn, t1: MTxn, x: MStep, off1: CompoundOffset, f2: Fate<Bytes>, read: MStep, again: MStep,
                    off2: CompoundOffset, f3: Fate<Bytes>, refresh: MStep, off3: CompoundOffset)
    requires DetourOf(tc, t1, x, off1) && SuccessOf(t1, f2, read, [again], off2) && f2.Forwarded?
             && SuccessOf(f2.txn, f3, refresh, [], off3)
    requires IsDetour(read, refresh) && read.key == Current(tc).key && read.concern == Current(tc).concern
    ensures AfterDetour(tc, f3, read, refresh, if x.command.Read? then [] else [x], off3)
  {
    var waiting, rest := if x.command.Read? then [] else [x], Pending(tc)[1..];
    assert Pending(t1)[1..] == waiting + rest;
    var q := [again] + Pending(t1)[1..];
    assert InheritFirst(q, read, off2)[1..] == q[1..] == waiting + rest;
    assert Pending(f2.txn)[1..] == waiting + rest;
    assert [] + (waiting + rest) == waiting + rest;
  }

  predicate Missing(w: World, step: MStep) {
    NeedsInstance(step) && step.key != "" && IsConcern(step.concern) && step.key !in StoreOf(w, step.concern)
  }

  function Cached(w: World, step: MStep, rec: Rec<Instance, Related>, off: CompoundOffset): World {
    WithStore(w, step.concern, StoreOf(w, step.concern)[step.key := Rec(rec.inst, rec.rel, off)])
  }

  lemma ColdDetour(c: World, tc: MTxn, rec: Rec<Instance, Related>, feed: Feed,
                   n: nat) returns (f: Fate<Bytes>, x: MStep, read: MStep, refresh: MStep)
    requires InFlight(tc) && DbKeyed(c.db) && KeyGiven(tc) && Missing(c, Current(tc))
             && StoredAs(c.db, Current(tc).concern, Current(tc).key, rec)
    ensures ArrivedIn(tc, x, OffAt(feed, tc, n))
    ensures var off := feed.offs(Current(tc).concern, Current(tc).key, n + 2);
            && AfterDetour(tc, f, read, refresh, if x.command.Read? then [] else [x], off)
            && refresh.result.value.key == "" && BroughtBy(read, rec) && BroughtBy(refresh, rec)
            && (f.Forwarded? ==> Leads(c, tc, n, Cached(c, Current(tc), rec, off), f.txn, n + 3, feed))
            && (f.Completed? ==> RunAlone(c, tc, feed, n).fate == f
                                 && RunAlone(c, tc, feed, n).world == Cached(c, Current(tc), rec, off))
  {
    var off1 := OffAt(feed, tc, n);
    KeyedAdmission(c, tc, off1);
    ServeMissed(c, tc, off1, KeyAt(feed, tc));
    x := Arrived(tc, off1);
    var t1 := Serve(c, tc, off1, KeyAt(feed, tc)).fate.txn;
    RunOne(c, tc, feed, n);
    f, read, refresh := DetourRest(c, tc, t1, x, off1, rec, feed, n + 1);
    if f.Forwarded? {
      var off := feed.offs(Current(tc).concern, Current(tc).key, n + 2);
      LeadsOn(c, tc, n, c, t1, n + 1, Cached(c, Current(tc), rec, off), f.txn, n + 3, feed);
    }
  }

  lemma DetourRest(c: World, tc: MTxn, t1: MTxn, x: MStep, off1: CompoundOffset, rec: Rec<Instance, Related>,
                   feed: Feed, n: nat)
    returns (f: Fate<Bytes>, read: MStep, refresh: MStep)
    requires DetourOf(tc, t1, x, off1) && DbKeyed(c.db) && Missing(c, Current(tc))
             && StoredAs(c.db, Current(tc).concern, Current(tc).key, rec)
    requires SameOrder(Current(tc), x) && x.key == Current(tc).key
    ensures var off := feed.offs(Current(tc).concern, Current(tc).key, n + 1);
            && AfterDetour(tc, f, read, refresh, if x.command.Read? then [] else [x], off)
            && refresh.result.value.key == "" && BroughtBy(read, rec) && BroughtBy(refresh, rec)
            && (f.Forwarded? ==> Leads(c, t1, n, Cached(c, Current(tc), rec, off), f.txn, n + 2, feed))
            && (f.Completed? ==> RunAlone(c, t1, feed, n).fate == f
                                 && RunAlone(c, t1, feed, n).world == Cached(c, Current(tc), rec, off))
  {
    CurrentInFlight(t1);
    assert Current(t1) == StorageRead(x, off1);
    assert Fitting(rec, x.concern);
    var f2;
    f2, read := DetourRead(c, t1, rec, feed, n);
    RunOne(c, t1, feed, n);
    var t2 := f2.txn;
    CurrentInFlight(t2);
    f, refresh := DetourRefresh(c, t2, rec, feed, n + 1);
    RunOne(c, t2, feed, n + 1);
    ThreeVisits(tc, t1, x, off1, f2, read, ProcessStep(x.concern, RefreshInstance, x.key,
                                                       Some(Packed(rec.inst, rec.rel))), OffAt(feed, t1, n),
                f, refresh, OffAt(feed, t2, n + 1));
    if f.Forwarded? {
      var off := feed.offs(Current(tc).concern, Current(tc).key, n + 1);
      LeadsOn(c, t1, n, c, t2, n + 1, Cached(c, Current(tc), rec, off), f.txn, n + 2, feed);
    }
  }

  lemma CachedWorld(bare: Bares, c: World, h: World, step: MStep, off: CompoundOffset)
    requires Alike(bare, c, h) && Missing(c, step) && step.key in StoreOf(h, step.concern)
    ensures var w := Cached(c, step, StoreOf(h, step.concern)[step.key], off);
            Alike(bare, w, h) && w.db == c.db && OnlyAt(StoreOf(c, step.concern), StoreOf(w, step.concern), step.key,
                                                        off)
            && forall n :: n != step.concern ==> StoreOf(w, n) == StoreOf(c, n)
  {
    var sh := StoreOf(h, step.concern);
    var sc := StoreOf(c, step.concern)[step.key := Rec(sh[step.key].inst, sh[step.key].rel, off)];
    WithStoreOf(c, step.concern, sc);
    AlikeStores(bare, c, h, step.concern);
    assert ColdStore(bare, sc, sh, c.db, step.concern);
  }

  /** The worlds after the detour. */
  lemma CachedSync(bare: Bares, c: World, nc: nat, h: World, nh: nat, feed: Feed, y: MStep, p: seq<MStep>, created: nat)
    requires Increasing(feed) && Alike(bare, c, h) && DbKeyed(c.db) && Ahead(c, feed, nc)
             && CreatesSafe(c, h, feed, p)
    requires Missing(c, y) && y.key in StoreOf(h, y.concern)
    ensures var c3 := Cached(c, y, StoreOf(h, y.concern)[y.key], feed.offs(y.concern, y.key, nc + 2));
            Alike(bare, c3, h) && DbKeyed(c3.db) && Ahead(c3, feed, nc + 3)
                && CreatesSafe(c3, h, feed, p)
            && y.key in StoreOf(c3, y.concern)
  {
    var off := feed.offs(y.concern, y.key, nc + 2);
    CachedWorld(bare, c, h, y, off);
    var c3 := Cached(c, y, StoreOf(h, y.concern)[y.key], off);
    AheadLater(c, feed, nc, nc + 2);
    AheadAfter(c, c3, y.concern, y.key, y.key, feed, nc + 2);
    CachedSafe(c, c3, h, feed, y, p, off);
    WithStoreOf(c, y.concern,
                StoreOf(c, y.concern)[y.key := Rec(StoreOf(h, y.concern)[y.key].inst, StoreOf(h, y.concern)[y.key].rel,
                                                   off)]);
  }

  lemma CachedSafe(c: World, c3: World, h: World, feed: Feed, y: MStep, p: seq<MStep>, off: CompoundOffset)
    requires CreatesSafe(c, h, feed, p) && y.key !in StoreOf(c, y.concern)
    requires OnlyAt(StoreOf(c, y.concern), StoreOf(c3, y.concern), y.key, off) && forall n ::
               n != y.concern ==> StoreOf(c3, n) == StoreOf(c, n)
    ensures CreatesSafe(c3, h, feed, p)
  {
    assert Shrinks(c, h, c3, h);
  }

  /** The cold run has caught up with the warm one: the step is now cached in both. */
  lemma DetourSync(bare: Bares, c: World, tc: MTxn, nc: nat, h: World, th: MTxn, nh: nat, feed: Feed, f: Fate<Bytes>,
                   x: MStep, read: MStep, refresh: MStep)
    requires Sync(bare, c, tc, nc, h, th, nh, feed) && Missing(c, Current(th))
             && Current(th).key in StoreOf(h, Current(th).concern) && !Current(th).command.Read?
    requires ArrivedIn(tc, x, OffAt(feed, tc, nc))
             && AfterDetour(tc, f, read, refresh, [x], feed.offs(Current(tc).concern, Current(tc).key, nc + 2))
    requires refresh.result.value.payload.Some? && refresh.result.value.payload.value.Packed?
    requires f.Forwarded? && SameTransaction(tc, f.txn)
    ensures Sync(bare, Cached(c, Current(th), StoreOf(h, Current(th).concern)[Current(th).key],
                              feed.offs(Current(th).concern, Current(th).key, nc + 2)), f.txn, nc + 3, h, th, nh, feed)
  {
    var y := Current(th);
    var c3 := Cached(c, y, StoreOf(h, y.concern)[y.key], feed.offs(y.concern, y.key, nc + 2));
    CachedSync(bare, c, nc, h, nh, feed, y, Pending(th), Creates(Finished(th)));
    DetourTxns(c, tc, c3, h, th, f, x, read, refresh, OffAt(feed, tc, nc),
               feed.offs(Current(tc).concern, Current(tc).key, nc + 2));
  }

  lemma DetourTxns(c: World, tc: MTxn, c3: World, h: World, th: MTxn, f: Fate<Bytes>, x: MStep, read: MStep,
                   refresh: MStep, off: CompoundOffset, off3: CompoundOffset)
    requires SyncTxns(c, tc, h, th) && NeedsInstance(Current(th)) && Current(th).key != ""
    requires ArrivedIn(tc, x, off) && AfterDetour(tc, f, read, refresh, [x], off3)
    requires refresh.result.value.payload.Some? && refresh.result.value.payload.value.Packed?
    requires f.Forwarded? && SameTransaction(tc, f.txn)
    ensures SyncTxns(c3, f.txn, h, th) && Current(f.txn).system.Process?
  {
    CurrentInFlight(tc);
    CurrentInFlight(th);
    CurrentInFlight(f.txn);
    MatchesDetour(Finished(tc), Finished(th), read, refresh);
    assert Pending(f.txn)[1..] == Pending(tc)[1..];
    assert Current(f.txn) == Inherit(x, refresh, off3);
  }

  lemma ReadAnswers(h: World, y: MStep, off: CompoundOffset, freshKey: string)
    requires y.system.Process? && y.command.Read? && IsConcern(y.concern) && y.key in StoreOf(h, y.concern)
    ensures var rec := StoreOf(h, y.concern)[y.key];
            HandleCommand(h, y, Some(Inst(rec.inst)), off, freshKey)
              == Reply(OkResult(Some(Packed(rec.inst, rec.rel))), [], h)
  {
    WithStoreOf(h, y.concern, StoreOf(h, y.concern));
    assert WithStore(h, y.concern, StoreOf(h, y.concern)) == h;
  }

  /** The warm run's visit to the read. */
  lemma WarmRead(h: World, th: MTxn, feed: Feed, n: nat) returns (r: Served, sh: MStep)
    requires InFlight(th) && DbKeyed(h.db) && KeyGiven(th) && Current(th).system.Process? && Current(th).command.Read?
             && Current(th).key != ""
    requires IsConcern(Current(th).concern) && Current(th).key in StoreOf(h, Current(th).concern)
    ensures r == Serve(h, th, OffAt(feed, th, n), KeyAt(feed, th)) && r.world == h
            && SuccessOf(th, r.fate, sh, [], OffAt(feed, th, n))
    ensures var rec := StoreOf(h, Current(th).concern)[Current(th).key];
            && SameKind(sh, Current(th)) && sh.key == Current(th).key && DoneOk(sh) && sh.result.value.key == ""
            && sh.result.value.payload == Some(Packed(rec.inst, rec.rel))
    ensures SameTransaction(th, r.fate.txn)
  {
    var off, key := OffAt(feed, th, n), KeyAt(feed, th);
    KeyedAdmission(h, th, off);
    AnsweredIs(h, th, off, key);
    ReadAnswers(h, Arrived(th, off), off, key);
    ServeAdmitted(h, th, off, key);
    ServeLawful(h, th, off, key);
    r, sh := Serve(h, th, off, key), SettledStep(h, th, off, key);
  }

  lemma ReadFront(c: World, h: World, p: seq<MStep>, refresh: MStep, offc: CompoundOffset, sh: MStep,
                  offh: CompoundOffset, feed: Feed, nc: nat, nh: nat)
    requires p != [] && |p| > 1 && PlannedAfter(p) && p[0].system.Process? && p[0].command.Read?
    requires DoneOk(refresh) && DoneOk(sh) && refresh.result.value.payload == sh.result.value.payload
    ensures var qc, qh := InheritFirst(p[1..], refresh, offc), InheritFirst(p[1..], sh, offh);
            SamePending(qc, qh) && PlannedAfter(qh) && FrontOk(c, h, qc[0], qh[0]) && StepAhead(qc[0], feed, nc)
                && StepAhead(qh[0], feed, nh)
            && qh[0].system.Process? && !IsInstanceStoreStep(qh[0])
  {
    assert [] + p[1..] == p[1..];
    PlannedNext(p, [], refresh, offc);
    PlannedNext(p, [], sh, offh);
    SamePendingNext(p[1..], refresh, offc, sh, offh);
    assert p[1].system.Process?;
    PlannedFront(c, h, p[1], refresh, offc, sh, offh);
  }

  lemma ReadForward(bare: Bares, c3: World, tc: MTxn, nc: nat, h: World, th: MTxn, nh: nat, feed: Feed, f: Fate<Bytes>,
                    read: MStep, refresh: MStep, off: CompoundOffset, fh: Fate<Bytes>, sh: MStep, offh: CompoundOffset)
    requires Increasing(feed) && InFlight(tc) && InFlight(th) && SameTransaction(tc, th)
             && SamePending(Pending(tc), Pending(th)) && PlannedAfter(Pending(th))
    requires Current(th).system.Process? && Current(th).command.Read? && Alike(bare, c3, h)
             && DbKeyed(c3.db) && DbKeyed(h.db)
    requires CreatesSafe(c3, h, feed, Pending(th))
    requires Ahead(c3, feed, nc) && Ahead(h, feed, nh) && Unused(h, feed, Creates(Finished(th)))
    requires AfterDetour(tc, f, read, refresh, [], off) && refresh.result.value.key == ""
    requires SuccessOf(th, fh, sh, [], offh) && SameKind(sh, Current(th)) && sh.result.value.key == ""
             && sh.result.value.payload == refresh.result.value.payload
    requires f.Forwarded? && fh.Forwarded? && SameTransaction(tc, f.txn) && SameTransaction(th, fh.txn)
    requires Matches(Finished(tc) + [read] + [refresh], Finished(th) + [sh])
    ensures Sync(bare, c3, f.txn, nc, h, fh.txn, nh, feed)
  {
    CurrentInFlight(th);
    assert [] + Pending(tc)[1..] == Pending(tc)[1..] && [] + Pending(th)[1..] == Pending(th)[1..];
    ReadFront(c3, h, Pending(th), refresh, off, sh, offh, feed, nc, nh);
    SafeNext(c3, h, c3, h, feed, Pending(th), [], sh, offh);
    CurrentInFlight(f.txn);
    CurrentInFlight(fh.txn);
    ReadKeys(th, fh, sh, offh, tc, f, read, refresh, off);
    CreatesLast(Finished(th), sh);
  }

  /** A read of the warm run, answered from storage in the cold run. */
  lemma ReadSync(bare: Bares, c: World, tc: MTxn, nc: nat, h: World, th: MTxn, nh: nat, feed: Feed, f: Fate<Bytes>,
                 read: MStep, refresh: MStep, rh: Served, sh: MStep)
    requires Sync(bare, c, tc, nc, h, th, nh, feed) && Missing(c, Current(th))
             && Current(th).key in StoreOf(h, Current(th).concern) && Current(th).command.Read?
    requires AfterDetour(tc, f, read, refresh, [], feed.offs(Current(tc).concern, Current(tc).key, nc + 2))
             && refresh.result.value.key == ""
    requires SuccessOf(th, rh.fate, sh, [], OffAt(feed, th, nh)) && rh.world == h && SameKind(sh, Current(th))
             && sh.key == Current(th).key
    requires DoneOk(sh) && sh.result.value.key == "" && sh.result.value.payload == refresh.result.value.payload
    requires (f.Forwarded? ==> SameTransaction(tc, f.txn)) && SameTransaction(th, rh.fate.txn)
    ensures Together(bare,
                     Served(f, Cached(c, Current(th), StoreOf(h, Current(th).concern)[Current(th).key],
                                      feed.offs(Current(th).concern, Current(th).key, nc + 2))), nc + 3, rh, nh + 1,
                                          feed)
  {
    var y, off := Current(th), feed.offs(Current(th).concern, Current(th).key, nc + 2);
    CurrentInFlight(tc);
    CurrentInFlight(th);
    CachedSync(bare, c, nc, h, nh, feed, y, Pending(th), Creates(Finished(th)));
    var c3 := Cached(c, y, StoreOf(h, y.concern)[y.key], off);
    MatchesRead(Finished(tc), Finished(th), read, refresh, sh);
    assert Pending(tc)[1..] == Pending(th)[1..];
    if f.Forwarded? {
      AheadLater(h, feed, nh, nh + 1);
      ReadForward(bare, c3, tc, nc + 3, h, th, nh + 1, feed, f, read, refresh, off, rh.fate, sh, OffAt(feed, th, nh));
    } else {
      DetourComplete(Finished(tc), Finished(th), read, refresh, sh);
    }
  }

  lemma AheadLater(w: World, feed: Feed, n: nat, m: nat)
    requires Ahead(w, feed, n) && m >= n
    ensures Ahead(w, feed, m)
  {
  }

  lemma DetourComplete(dc: seq<MStep>, dh: seq<MStep>, read: MStep, refresh: MStep, sh: MStep)
    requires AllOk(dc) && AllOk(dh) && DoneOk(read) && DoneOk(refresh) && DoneOk(sh)
    ensures AllOk(dc + [read] + [refresh]) && AllOk(dh + [sh]) && Last(dc + [read] + [refresh]) == refresh
            && Last(dh + [sh]) == sh
  {
  }

  lemma ReadKeys(th: MTxn, fh: Fate<Bytes>, sh: MStep, offh: CompoundOffset, tc: MTxn, f: Fate<Bytes>, read: MStep,
                 refresh: MStep, off: CompoundOffset)
    requires SuccessOf(th, fh, sh, [], offh) && fh.Forwarded? && sh.result.value.key == ""
    requires InFlight(tc) && AfterDetour(tc, f, read, refresh, [], off) && f.Forwarded?
             && refresh.result.value.key == ""
    ensures KeyGiven(fh.txn) && KeyGiven(f.txn)
  {
    KeyGivenNext(th, fh, sh, [], offh);
    var n := f.txn.currentStepIdx;
    assert Finished(f.txn)[n - 1] == refresh;
    assert f.txn.forwardSteps[n - 1] == refresh;
  }

  // ---------- a detour of both runs ----------

  lemma CachedBoth(bare: Bares, c: World, nc: nat, h: World, nh: nat, feed: Feed, y: MStep, p: seq<MStep>, created: nat,
                   rec: Rec<Instance, Related>, x': MStep, y': MStep)
    requires Increasing(feed) && Alike(bare, c, h) && DbKeyed(c.db) && DbKeyed(h.db) && Ahead(c, feed, nc)
             && Ahead(h, feed, nh) && CreatesSafe(c, h, feed, p) && Unused(h, feed, created)
    requires Missing(h, y) && InstKey(rec.inst) == y.key && Lookup(h.db, y.concern, y.key).Some?
    requires x'.system.Process? && y'.system.Process?
    ensures var c3 := Cached(c, y, rec, feed.offs(y.concern, y.key, nc));
            var h3 := Cached(h, y, rec, feed.offs(y.concern, y.key, nh));
            SyncWorlds(bare, c3, nc + 1, h3, nh + 1, feed, x', y', created) && CreatesSafe(c3, h3, feed, p)
  {
    var n, i, offc, offh := y.concern, rec.inst, feed.offs(y.concern, y.key, nc), feed.offs(y.concern, y.key, nh);
    var c3, h3 := Put(c, n, i, rec.rel, offc), Put(h, n, i, rec.rel, offh);
    PutOnly(c, n, i, rec.rel, offc);
    PutOnly(h, n, i, rec.rel, offh);
    PutAhead(c, n, i, rec.rel, feed, nc);
    PutAhead(h, n, i, rec.rel, feed, nh);
    PutAlike(bare, c, h, n, i, rec.rel, offc, offh);
    HalfShrinks(c, c, h, h, n, i, rec.rel, offc, offh);
    UnusedAfter(h, h3, n, y.key, offh, feed, created);
  }

  lemma PutAlike(bare: Bares, c: World, h: World, n: string, i: Instance, rel: Option<Related>, offc: CompoundOffset,
                 offh: CompoundOffset)
    requires Alike(bare, c, h) && IsConcern(n) && InstKey(i) != ""
    ensures Alike(bare, Put(c, n, i, rel, offc), Put(h, n, i, rel, offh))
  {
    PutOnly(c, n, i, rel, offc);
    PutOnly(h, n, i, rel, offh);
    var c', h' := Put(c, n, i, rel, offc), Put(h, n, i, rel, offh);
    forall m | IsConcern(m) ensures ColdStore(bare, StoreOf(c', m), StoreOf(h', m), c.db, m) && "" !in StoreOf(h', m) {
      AlikeStores(bare, c, h, m);
      PutBoth(bare, StoreOf(c, m), StoreOf(h, m), c.db, m, InstKey(i), Rec(i, rel, offc), Rec(i, rel, offh));
    }
    StoresAlike(bare, c', h');
  }

  /** What both detours have finished. */
  ghost predicate BothBrought(tc: MTxn, th: MTxn, rec: Rec<Instance, Related>, rc: MStep, fc: MStep, rh: MStep,
                              fh: MStep)
    requires InRange(tc) && InRange(th)
  {
    && IsDetour(rc, fc) && IsDetour(rh, fh) && BroughtBy(rc, rec) && BroughtBy(fc, rec) && BroughtBy(rh, rec)
    && BroughtBy(fh, rec) && rc.concern == rh.concern && rc.key == rh.key && fc.result.value.key == ""
    && fh.result.value.key == "" && Matches(Finished(tc), Finished(th))
  }

  lemma BothMatch(tc: MTxn, th: MTxn, rec: Rec<Instance, Related>, rc: MStep, fc: MStep, rh: MStep, fh: MStep)
    requires InRange(tc) && InRange(th) && BothBrought(tc, th, rec, rc, fc, rh, fh)
    ensures Matches(Finished(tc) + [rc] + [fc], Finished(th) + [rh] + [fh])
    ensures Creates(Finished(th) + [rh] + [fh]) == Creates(Finished(th))
  {
    MatchesBoth(Finished(tc), Finished(th), rc, rh);
    MatchesBoth(Finished(tc) + [rc], Finished(th) + [rh], fc, fh);
    CreatesLast(Finished(th), rh);
    CreatesLast(Finished(th) + [rh], fh);
  }

  /** The step behind both detours: the one that missed, or for a read the next. */
  lemma BothFront(c3: World, h3: World, p: seq<MStep>, x: MStep, y: MStep, fc: MStep, offc: CompoundOffset, fh: MStep,
                  offh: CompoundOffset)
    requires p != [] && PlannedAfter(p) && NeedsInstance(y) && SameStep(x, y) && SameKind(p[0], y) && !IsUpdate(y)
             && !IsValidateUpdate(y)
    requires DoneOk(fc) && DoneOk(fh) && fc.result.value.payload == fh.result.value.payload
             && fc.result.value.payload.Some? && fc.result.value.payload.value.Packed?
    requires y.command.Read? ==> |p| > 1
    ensures var rest := p[1..];
            var qc := InheritFirst((if x.command.Read? then [] else [x]) + rest, fc, offc);
            var qh := InheritFirst((if y.command.Read? then [] else [y]) + rest, fh, offh);
            && SamePending(qc, qh) && PlannedAfter(qh) && FrontOk(c3, h3, qc[0], qh[0])
            && qc[0].system.Process? && qh[0].system.Process?
            && (!y.command.Read? ==> qc[0].key == x.key && qh[0].key == y.key)
  {
    var rest := p[1..];
    if y.command.Read? {
      assert [] + rest == rest;
      PlannedNext(p, [], fc, offc);
      PlannedNext(p, [], fh, offh);
      SamePendingNext(rest, fc, offc, fh, offh);
      PlannedFront(c3, h3, p[1], fc, offc, fh, offh);
    } else {
      var qh := InheritFirst([y] + rest, fh, offh);
      assert InheritFirst([x] + rest, fc, offc)[1..] == rest && qh[1..] == rest;
      forall k | 0 < k < |qh| ensures Planned(qh[k]) && MayFollow(qh[k - 1], qh[k]) {
        assert qh[k] == p[k] && MayFollow(p[k - 1], p[k]);
        assert k > 1 ==> qh[k - 1] == p[k - 1];
      }
    }
  }

  lemma BothTxns(c: World, tc: MTxn, c3: World, h: World, th: MTxn, h3: World, rec: Rec<Instance, Related>, x: MStep,
                 y: MStep, f: Fate<Bytes>, rc: MStep, fc: MStep, offc: CompoundOffset, g: Fate<Bytes>, rh: MStep,
                 fh: MStep, offh: CompoundOffset, off: CompoundOffset, off': CompoundOffset)
    requires SyncTxns(c, tc, h, th) && NeedsInstance(Current(th)) && Current(th).key != ""
             && !IsValidateUpdate(Current(th)) && BothBrought(tc, th, rec, rc, fc, rh, fh)
    requires ArrivedIn(tc, x, off) && ArrivedIn(th, y, off')
    requires AfterDetour(tc, f, rc, fc, if x.command.Read? then [] else [x], offc)
    requires AfterDetour(th, g, rh, fh, if y.command.Read? then [] else [y], offh)
    requires f.Forwarded? && g.Forwarded? && SameTransaction(tc, f.txn) && SameTransaction(th, g.txn)
    ensures SyncTxns(c3, f.txn, h3, g.txn) && Creates(Finished(g.txn)) == Creates(Finished(th))
    ensures Current(f.txn).system.Process? && Current(g.txn).system.Process?
  {
    CurrentInFlight(tc);
    CurrentInFlight(th);
    CurrentInFlight(f.txn);
    CurrentInFlight(g.txn);
    BothMatch(tc, th, rec, rc, fc, rh, fh);
    assert Pending(tc)[1..] == Pending(th)[1..];
    BothFront(c3, h3, Pending(th), x, y, fc, offc, fh, offh);
    DetourKeyGiven(tc, f, rc, fc, if x.command.Read? then [] else [x], offc);
    DetourKeyGiven(th, g, rh, fh, if y.command.Read? then [] else [y], offh);
  }

  lemma DetourKeyGiven(tc: MTxn, f: Fate<Bytes>, read: MStep, refresh: MStep, waiting: seq<MStep>, off: CompoundOffset)
    requires InFlight(tc) && AfterDetour(tc, f, read, refresh, waiting, off) && f.Forwarded?
             && refresh.result.value.key == ""
    ensures KeyGiven(f.txn)
  {
    var n := f.txn.currentStepIdx;
    assert Finished(f.txn)[n - 1] == refresh;
    assert f.txn.forwardSteps[n - 1] == refresh;
  }

  // ---------- the theorem ----------

  /** A run that stops at the storage read of an item without related value. */
  ghost predicate BareStop(bare: Bares, e: Ending) {
    && e.fate.Failed? && InRange(e.fate.txn)
    && var step := Current(e.fate.txn);
       step.system.Storage? && step.command.Read? && (step.concern, step.key) in bare
           && Bare(e.world.db, step.concern, step.key)
  }

  ghost predicate Ends(bare: Bares, c: Ending, h: Ending) { SameEnd(bare, c, h) || BareStop(bare, c) }

  ghost predicate SameRun(bare: Bares, c: World, tc: MTxn, nc: nat, h: World, th: MTxn, nh: nat, feed: Feed)
    requires InFlight(tc) && InFlight(th) && DbKeyed(c.db) && DbKeyed(h.db)
  {
    Ends(bare, RunAlone(c, tc, feed, nc), RunAlone(h, th, feed, nh))
  }

  lemma SameEndCount(bare: Bares, a: Ending, b: Ending, a': Ending, b': Ending)
    requires Ends(bare, a, b) && a'.fate == a.fate && a'.world == a.world && b'.fate == b.fate && b'.world == b.world
    ensures Ends(bare, a', b')
  {
  }

  /** A step for a record that is stored without related value stops at the storage read. */
  lemma BareEnds(bare: Bares, w: World, txn: MTxn, feed: Feed, n: nat)
    requires InFlight(txn) && DbKeyed(w.db) && KeyGiven(txn) && MakesKeys(feed)
    requires Missing(w, Current(txn)) && Bare(w.db, Current(txn).concern, Current(txn).key)
    ensures var e := RunAlone(w, txn, feed, n);
            && StopsAlike(w, txn, e, if txn.uponError.Bailout? then NilResult else Internal)
            && ((Current(txn).concern, Current(txn).key) in bare ==> BareStop(bare, e))
  {
    var off, key := OffAt(feed, txn, n), KeyAt(feed, txn);
    KeyedAdmission(w, txn, off);
    ServeMissed(w, txn, off, key);
    RunOne(w, txn, feed, n);
    BareReadEnds(bare, w, txn, Serve(w, txn, off, key).fate.txn, Arrived(txn, off), off, feed, n + 1);
  }

  /** The run fails with this code, having changed nothing and finished nothing more. */
  ghost predicate StopsAlike(w: World, txn: MTxn, e: Ending, code: Code)
    requires InRange(txn)
  {
    e.world == w && e.fate.Failed? && e.fate.code == code && InRange(e.fate.txn)
        && Finished(e.fate.txn) == Finished(txn)
  }

  lemma BareReadEnds(bare: Bares, w: World, txn: MTxn, t: MTxn, step: MStep, off: CompoundOffset, feed: Feed, n: nat)
    requires DetourOf(txn, t, step, off) && DbKeyed(w.db) && MakesKeys(feed) && step.key != ""
             && IsConcern(step.concern)
    requires Bare(w.db, step.concern, step.key)
    ensures var e := RunAlone(w, t, feed, n);
            && StopsAlike(w, txn, e, if t.uponError.Bailout? then NilResult else Internal)
            && ((step.concern, step.key) in bare ==> BareStop(bare, e))
  {
    CurrentInFlight(t);
    var o, key := OffAt(feed, t, n), KeyAt(feed, t);
    assert Current(t) == StorageRead(step, off);
    KeyedAdmission(w, t, o);
    AnsweredIs(w, t, o, key);
    ServeStops(w, t, o, key);
    StopCode(w, t, o, key);
  }

  lemma SyncKey(bare: Bares, c: World, tc: MTxn, nc: nat, h: World, th: MTxn, nh: nat, feed: Feed)
    requires Sync(bare, c, tc, nc, h, th, nh, feed)
    ensures KeyAt(feed, tc) == KeyAt(feed, th) && KeyAt(feed, th) != "" && Current(tc).concern == Current(th).concern
    ensures SameStep(Current(tc), Current(th))
  {
    MatchesCreates(Finished(tc), Finished(th));
    CurrentInFlight(tc);
    CurrentInFlight(th);
  }

  /** Both runs visit the same step. */
  lemma SimulateSame(bare: Bares, c: World, tc: MTxn, nc: nat, h: World, th: MTxn, nh: nat, feed: Feed)
    requires Sync(bare, c, tc, nc, h, th, nh, feed)
    requires !(NeedsInstance(Current(th)) && Current(th).key !in StoreOf(c, Current(th).concern))
             || Current(th).key == ""
    requires !KeyedCreate(Current(th))
    ensures Together(bare, Serve(c, tc, OffAt(feed, tc, nc), KeyAt(feed, th)), nc + 1,
                     Serve(h, th, OffAt(feed, th, nh), KeyAt(feed, th)), nh + 1, feed)
  {
    var y := Current(th);
    SyncKey(bare, c, tc, nc, h, th, nh, feed);
    var offc, offh := OffAt(feed, tc, nc), OffAt(feed, th, nh);
    KeyedAdmission(c, tc, offc);
    KeyedAdmission(h, th, offh);
    AlikeStores(bare, c, h, y.concern);
    if y.key == "" && !IsKeylessStep(y) {
      RejectedTogether(bare, c, tc, nc, h, th, nh, feed, KeyNotPresent, KeyAt(feed, th));
    } else if y.system.Storage? {
      StorageTogether(bare, c, tc, nc, h, th, nh, feed);
    } else if NeedsInstance(y) && y.command.Create? {
      RejectedTogether(bare, c, tc, nc, h, th, nh, feed, Internal, KeyAt(feed, th));
    } else {
      ProcessTogether(bare, c, tc, nc, h, th, nh, feed, KeyAt(feed, th));
    }
  }

  /** Neither cache has the record. */
  ghost predicate BothMiss(bare: Bares, c: World, tc: MTxn, nc: nat, h: World, th: MTxn, nh: nat, feed: Feed) {
    && Sync(bare, c, tc, nc, h, th, nh, feed) && NeedsInstance(Current(th)) && Current(th).key != ""
    && Current(th).key !in StoreOf(h, Current(th).concern)
  }

  lemma BothMissing(bare: Bares, c: World, tc: MTxn, nc: nat, h: World, th: MTxn, nh: nat, feed: Feed)
    requires BothMiss(bare, c, tc, nc, h, th, nh, feed)
    ensures Current(tc).key == Current(th).key && Current(tc).concern == Current(th).concern
    ensures NeedsInstance(Current(tc)) && Current(tc).key !in StoreOf(c, Current(tc).concern)
  {
    SyncKey(bare, c, tc, nc, h, th, nh, feed);
    AlikeStores(bare, c, h, Current(th).concern);
  }

  /** Both runs stop without a change. */
  lemma BothStopAlike(bare: Bares, c: World, tc: MTxn, nc: nat, h: World, th: MTxn, nh: nat, feed: Feed, code: Code)
    requires Sync(bare, c, tc, nc, h, th, nh, feed)
    requires StopsAlike(c, tc, RunAlone(c, tc, feed, nc), code) && StopsAlike(h, th, RunAlone(h, th, feed, nh), code)
    ensures SameRun(bare, c, tc, nc, h, th, nh, feed)
  {
  }

  /** It is not stored either. */
  lemma SimulateLost(bare: Bares, c: World, tc: MTxn, nc: nat, h: World, th: MTxn, nh: nat, feed: Feed)
    requires BothMiss(bare, c, tc, nc, h, th, nh, feed)
    requires IsConcern(Current(th).concern) ==> Lookup(c.db, Current(th).concern, Current(th).key).None?
    ensures SameRun(bare, c, tc, nc, h, th, nh, feed)
  {
    BothMissing(bare, c, tc, nc, h, th, nh, feed);
    MissedEnds(c, tc, feed, nc);
    MissedEnds(h, th, feed, nh);
    BothStopAlike(bare, c, tc, nc, h, th, nh, feed, Internal);
  }

  /** It is stored without related value. */
  lemma SimulateBare(bare: Bares, c: World, tc: MTxn, nc: nat, h: World, th: MTxn, nh: nat, feed: Feed)
    requires BothMiss(bare, c, tc, nc, h, th, nh, feed) && IsConcern(Current(th).concern)
    requires Bare(c.db, Current(th).concern, Current(th).key)
    ensures SameRun(bare, c, tc, nc, h, th, nh, feed)
  {
    BothMissing(bare, c, tc, nc, h, th, nh, feed);
    BareEnds(bare, c, tc, feed, nc);
    BareEnds(bare, h, th, feed, nh);
    BothStopAlike(bare, c, tc, nc, h, th, nh, feed, if th.uponError.Bailout? then NilResult else Internal);
  }

  /** The refresh of a record of another concern is refused. */
  lemma MisfitEnds(w: World, txn: MTxn, rec: Rec<Instance, Related>, feed: Feed, n: nat) returns (read: MStep)
    requires InFlight(txn) && DbKeyed(w.db) && KeyGiven(txn) && MakesKeys(feed) && Missing(w, Current(txn))
    requires Held(w.db, Current(txn).concern, Current(txn).key, rec) && !Fitting(rec, Current(txn).concern)
    ensures var e := RunAlone(w, txn, feed, n);
            && e.world == w && e.fate.Failed? && e.fate.code == Internal && InRange(e.fate.txn)
            && Finished(e.fate.txn) == Finished(txn) + [read]
    ensures BroughtBy(read, rec) && read.system.Storage? && read.command.Read? && read.concern == Current(txn).concern
            && read.key == Current(txn).key
  {
    var off, key := OffAt(feed, txn, n), KeyAt(feed, txn);
    KeyedAdmission(w, txn, off);
    ServeMissed(w, txn, off, key);
    RunOne(w, txn, feed, n);
    var t1 := Serve(w, txn, off, key).fate.txn;
    CurrentInFlight(t1);
    var f;
    f, read := DetourRead(w, t1, rec, feed, n + 1);
    RunOne(w, t1, feed, n + 1);
    MisfitRefused(w, f.txn, rec, feed, n + 2);
  }

  lemma MisfitRefused(w: World, t: MTxn, rec: Rec<Instance, Related>, feed: Feed, n: nat)
    requires InFlight(t) && DbKeyed(w.db) && MakesKeys(feed) && Current(t).system.Process?
             && Current(t).command.RefreshInstance? && Current(t).key != ""
    requires Current(t).payload == Some(Packed(rec.inst, rec.rel)) && !Fitting(rec, Current(t).concern)
    ensures StopsAlike(w, t, RunAlone(w, t, feed, n), Internal)
  {
    var off, key := OffAt(feed, t, n), KeyAt(feed, t);
    KeyedAdmission(w, t, off);
    AnsweredIs(w, t, off, key);
    MisfitAnswer(w, Arrived(t, off), rec, off, key);
    ServeStops(w, t, off, key);
    StopCode(w, t, off, key);
  }

  lemma MisfitAnswer(w: World, step: MStep, rec: Rec<Instance, Related>, off: CompoundOffset, freshKey: string)
    requires step.system.Process? && step.command.RefreshInstance? && !Fitting(rec, step.concern)
             && step.payload == Some(Packed(rec.inst, rec.rel))
    ensures HandleCommand(w, step, None, off, freshKey).outcome == Refuse(Internal, w).outcome
  {
  }

  lemma SimulateMisfit(bare: Bares, c: World, tc: MTxn, nc: nat, h: World, th: MTxn, nh: nat, feed: Feed,
                       rec: Rec<Instance, Related>)
    requires BothMiss(bare, c, tc, nc, h, th, nh, feed) && IsConcern(Current(th).concern)
    requires Held(c.db, Current(th).concern, Current(th).key, rec)
             && Held(h.db, Current(th).concern, Current(th).key, rec)
    requires !Fitting(rec, Current(th).concern)
    ensures SameRun(bare, c, tc, nc, h, th, nh, feed)
  {
    BothMissing(bare, c, tc, nc, h, th, nh, feed);
    var x := MisfitEnds(c, tc, rec, feed, nc);
    var y := MisfitEnds(h, th, rec, feed, nh);
    MatchesBoth(Finished(tc), Finished(th), x, y);
  }

  /** It is stored: both runs make the detour. */
  lemma BothDetour(bare: Bares, c: World, tc: MTxn, nc: nat, h: World, th: MTxn, nh: nat, feed: Feed,
                   rec: Rec<Instance, Related>) returns (rc: Served, rh: Served)
    requires BothMiss(bare, c, tc, nc, h, th, nh, feed) && IsConcern(Current(th).concern)
    requires StoredAs(c.db, Current(th).concern, Current(th).key, rec)
             && StoredAs(h.db, Current(th).concern, Current(th).key, rec)
    ensures Together(bare, rc, nc + 3, rh, nh + 3, feed)
    ensures Detoured(c, tc, nc, rc.world, rc.fate, feed) && Detoured(h, th, nh, rh.world, rh.fate, feed)
  {
    var y, offc, offh := Current(th), feed.offs(Current(th).concern, Current(th).key, nc + 2),
                         feed.offs(Current(th).concern, Current(th).key, nh + 2);
    BothMissing(bare, c, tc, nc, h, th, nh, feed);
    var f, x, readc, refreshc := ColdDetour(c, tc, rec, feed, nc);
    var g, y', readh, refreshh := ColdDetour(h, th, rec, feed, nh);
    rc, rh := Served(f, Cached(c, y, rec, offc)), Served(g, Cached(h, y, rec, offh));
    BothTogether(bare, c, tc, nc, h, th, nh, feed, rec, x, y', rc, readc, refreshc, rh, readh, refreshh);
  }

  lemma BothTogether(bare: Bares, c: World, tc: MTxn, nc: nat, h: World, th: MTxn, nh: nat, feed: Feed,
                     rec: Rec<Instance, Related>, x: MStep, y: MStep, rc: Served, readc: MStep, refreshc: MStep,
                     rh: Served, readh: MStep, refreshh: MStep)
    requires BothMiss(bare, c, tc, nc, h, th, nh, feed) && IsConcern(Current(th).concern)
             && InstKey(rec.inst) == Current(th).key && Lookup(h.db, Current(th).concern, Current(th).key).Some?
    requires ArrivedIn(tc, x, OffAt(feed, tc, nc)) && ArrivedIn(th, y, OffAt(feed, th, nh))
    requires var n, k := Current(th).concern, Current(th).key;
             && AfterDetour(tc, rc.fate, readc, refreshc, if x.command.Read? then [] else [x], feed.offs(n, k, nc + 2))
             && AfterDetour(th, rh.fate, readh, refreshh, if y.command.Read? then [] else [y], feed.offs(n, k, nh + 2))
             && rc.world == Cached(c, Current(th), rec, feed.offs(n, k, nc + 2))
             && rh.world == Cached(h, Current(th), rec, feed.offs(n, k, nh + 2))
    requires BothBrought(tc, th, rec, readc, refreshc, readh, refreshh)
    requires (rc.fate.Forwarded? ==> SameTransaction(tc, rc.fate.txn))
             && (rh.fate.Forwarded? ==> SameTransaction(th, rh.fate.txn))
    ensures Together(bare, rc, nc + 3, rh, nh + 3, feed)
  {
    var y0, created := Current(th), Creates(Finished(th));
    CurrentInFlight(tc);
    CurrentInFlight(th);
    AheadLater(c, feed, nc, nc + 2);
    AheadLater(h, feed, nh, nh + 2);
    CachedBoth(bare, c, nc + 2, h, nh + 2, feed, y0, Pending(th), created, rec, x, y);
    if rc.fate.Forwarded? {
      var offc, offh := feed.offs(y0.concern, y0.key, nc + 2), feed.offs(y0.concern, y0.key, nh + 2);
      BothTxns(c, tc, rc.world, h, th, rh.world, rec, x, y, rc.fate, readc, refreshc, offc, rh.fate, readh, refreshh,
               offh,
               OffAt(feed, tc, nc), OffAt(feed, th, nh));
      CachedBoth(bare, c, nc + 2, h, nh + 2, feed, y0, Pending(th), created, rec, Current(rc.fate.txn),
                 Current(rh.fate.txn));
      BothSafe(rc.world, rh.world, feed, th, y, rh.fate, readh, refreshh, offh);
    } else {
      BothMatch(tc, th, rec, readc, refreshc, readh, refreshh);
      BothComplete(Finished(tc), readc, refreshc);
      BothComplete(Finished(th), readh, refreshh);
    }
  }

  lemma BothComplete(done: seq<MStep>, read: MStep, refresh: MStep)
    requires AllOk(done) && DoneOk(read) && DoneOk(refresh)
    ensures AllOk(done + [read] + [refresh]) && Last(done + [read] + [refresh]) == refresh
  {
  }

  lemma BothSafe(c3: World, h3: World, feed: Feed, th: MTxn, y: MStep, g: Fate<Bytes>, read: MStep, refresh: MStep,
                 off: CompoundOffset)
    requires InFlight(th) && CreatesSafe(c3, h3, feed, Pending(th)) && g.Forwarded? && y.system.Process?
    requires AfterDetour(th, g, read, refresh, if y.command.Read? then [] else [y], off)
    ensures CreatesSafe(c3, h3, feed, Pending(g.txn))
  {
    SafeNext(c3, h3, c3, h3, feed, Pending(th), if y.command.Read? then [] else [y], refresh, off);
  }

  lemma SameHeld(c: MDb, h: MDb, concern: string, k: string, rec: Rec<Instance, Related>)
    requires SameDb(c, h) && Held(c, concern, k, rec)
    ensures Held(h, concern, k, rec)
  {
  }

  /** Neither cache has the record. */
  lemma {:induction false} SimulateBoth(bare: Bares, c: World, tc: MTxn, nc: nat, h: World, th: MTxn, nh: nat,
                                        feed: Feed)
    requires BothMiss(bare, c, tc, nc, h, th, nh, feed)
    ensures SameRun(bare, c, tc, nc, h, th, nh, feed)
    decreases Weight(c, tc), 0
  {
    var n, k := Current(th).concern, Current(th).key;
    var item := Lookup(c.db, n, k);
    if !IsConcern(n) || item.None? {
      SimulateLost(bare, c, tc, nc, h, th, nh, feed);
    } else if item.value.rel.None? {
      SimulateBare(bare, c, tc, nc, h, th, nh, feed);
    } else {
      var rec := Rec(item.value.inst, RelBytes(item.value.rel.value), item.value.cmpdOffset);
      SameHeld(c.db, h.db, n, k, rec);
      if Fitting(rec, n) {
        var rc, rh := BothDetour(bare, c, tc, nc, h, th, nh, feed, rec);
        if rc.fate.Forwarded? {
          Simulate(bare, rc.world, rc.fate.txn, nc + 3, rh.world, rh.fate.txn, nh + 3, feed);
        }
        JoinBoth(bare, c, tc, nc, h, th, nh, rc, rh, feed);
      } else {
        SimulateMisfit(bare, c, tc, nc, h, th, nh, feed, rec);
      }
    }
  }

  lemma JoinBoth(bare: Bares, c: World, tc: MTxn, nc: nat, h: World, th: MTxn, nh: nat, rc: Served, rh: Served,
                 feed: Feed)
    requires InFlight(tc) && InFlight(th) && DbKeyed(c.db) && DbKeyed(h.db)
             && Together(bare, rc, nc + 3, rh, nh + 3, feed)
    requires Detoured(c, tc, nc, rc.world, rc.fate, feed) && Detoured(h, th, nh, rh.world, rh.fate, feed)
    requires rc.fate.Forwarded? ==> SameRun(bare, rc.world, rc.fate.txn, nc + 3, rh.world, rh.fate.txn, nh + 3, feed)
    ensures SameRun(bare, c, tc, nc, h, th, nh, feed)
  {
    if rc.fate.Forwarded? {
      SameEndCount(bare, RunAlone(rc.world, rc.fate.txn, feed, nc + 3), RunAlone(rh.world, rh.fate.txn, feed, nh + 3),
                   RunAlone(c, tc, feed, nc), RunAlone(h, th, feed, nh));
    } else {
      SameEndCount(bare, Ending(rc.fate, rc.world, 1), Ending(rh.fate, rh.world, 1), RunAlone(c, tc, feed, nc),
                   RunAlone(h, th, feed, nh));
    }
  }

  lemma {:induction false} Simulate(bare: Bares, c: World, tc: MTxn, nc: nat, h: World, th: MTxn, nh: nat, feed: Feed)
    requires Sync(bare, c, tc, nc, h, th, nh, feed)
    ensures SameRun(bare, c, tc, nc, h, th, nh, feed)
    decreases Weight(c, tc), 1
  {
    var y := Current(th);
    SyncKey(bare, c, tc, nc, h, th, nh, feed);
    if NeedsInstance(y) && y.key != "" && y.key !in StoreOf(h, y.concern) {
      SimulateBoth(bare, c, tc, nc, h, th, nh, feed);
    } else if NeedsInstance(y) && y.key != "" && y.key !in StoreOf(c, y.concern) {
      SimulateDetour(bare, c, tc, nc, h, th, nh, feed);
    } else if KeyedCreate(y) {
      SimulateKeyed(bare, c, tc, nc, h, th, nh, feed);
    } else {
      SimulateSame(bare, c, tc, nc, h, th, nh, feed);
      RunOne(c, tc, feed, nc);
      RunOne(h, th, feed, nh);
      var rc, rh := Serve(c, tc, OffAt(feed, tc, nc), KeyAt(feed, tc)),
          Serve(h, th, OffAt(feed, th, nh), KeyAt(feed, th));
      if rc.fate.Forwarded? {
        Simulate(bare, rc.world, rc.fate.txn, nc + 1, rh.world, rh.fate.txn, nh + 1, feed);
      }
      JoinVisit(bare, c, tc, nc, h, th, nh, rc, rh, feed);
    }
  }

  /** What the runs do behind a visit is what they do. */
  lemma JoinVisit(bare: Bares, c: World, tc: MTxn, nc: nat, h: World, th: MTxn, nh: nat, rc: Served, rh: Served,
                  feed: Feed)
    requires InFlight(tc) && InFlight(th) && DbKeyed(c.db) && DbKeyed(h.db)
             && Together(bare, rc, nc + 1, rh, nh + 1, feed)
    requires rc.fate.Forwarded? ==> Leads(c, tc, nc, rc.world, rc.fate.txn, nc + 1, feed)
                                    && Leads(h, th, nh, rh.world, rh.fate.txn, nh + 1, feed)
    requires rc.fate.Forwarded? ==> SameRun(bare, rc.world, rc.fate.txn, nc + 1, rh.world, rh.fate.txn, nh + 1, feed)
    requires !rc.fate.Forwarded? ==> RunAlone(c, tc, feed, nc).fate == rc.fate
                                     && RunAlone(c, tc, feed, nc).world == rc.world
    requires !rc.fate.Forwarded? ==> RunAlone(h, th, feed, nh).fate == rh.fate
                                     && RunAlone(h, th, feed, nh).world == rh.world
    ensures SameRun(bare, c, tc, nc, h, th, nh, feed)
  {
    if rc.fate.Forwarded? {
      SameEndCount(bare, RunAlone(rc.world, rc.fate.txn, feed, nc + 1), RunAlone(rh.world, rh.fate.txn, feed, nh + 1),
                   RunAlone(c, tc, feed, nc), RunAlone(h, th, feed, nh));
    } else {
      SameEndCount(bare, Ending(rc.fate, rc.world, 1), Ending(rh.fate, rh.world, 1), RunAlone(c, tc, feed, nc),
                   RunAlone(h, th, feed, nh));
    }
  }

  /** A create under a given key, with its refresh. */
  lemma {:induction false} SimulateKeyed(bare: Bares, c: World, tc: MTxn, nc: nat, h: World, th: MTxn, nh: nat,
                                         feed: Feed)
    requires Sync(bare, c, tc, nc, h, th, nh, feed) && KeyedCreate(Current(th))
    ensures SameRun(bare, c, tc, nc, h, th, nh, feed)
    decreases Weight(c, tc), 0
  {
    SyncKey(bare, c, tc, nc, h, th, nh, feed);
    var i, oc, oh := KeyedTogether(bare, c, tc, nc, h, th, nh, feed);
    RunOne(c, tc, feed, nc);
    RunOne(h, th, feed, nh);
    var rc, rh := Serve(c, tc, OffAt(feed, tc, nc), KeyAt(feed, tc)),
        Serve(h, th, OffAt(feed, th, nh), KeyAt(feed, th));
    if rc.fate.Forwarded? {
      SimulateHalf(bare, c, oc, rc.world, rc.fate.txn, nc + 1, h, oh, rh.world, rh.fate.txn, nh + 1, i, feed);
      SameEndCount(bare, RunAlone(rc.world, rc.fate.txn, feed, nc + 1), RunAlone(rh.world, rh.fate.txn, feed, nh + 1),
                   RunAlone(c, tc, feed, nc), RunAlone(h, th, feed, nh));
    } else {
      JoinVisit(bare, c, tc, nc, h, th, nh, rc, rh, feed);
    }
  }

  lemma {:induction false} SimulateHalf(bare: Bares, c0: World, oc: CompoundOffset, c: World, tc: MTxn, nc: nat,
                                        h0: World, oh: CompoundOffset, h: World, th: MTxn, nh: nat, i: Instance,
                                        feed: Feed)
    requires Half(bare, c0, oc, c, tc, nc, h0, oh, h, th, nh, i, feed)
    ensures SameRun(bare, c, tc, nc, h, th, nh, feed)
    decreases Weight(c, tc), 0
  {
    MatchesCreates(Finished(tc), Finished(th));
    HalfRefresh(bare, c0, oc, c, tc, nc, h0, oh, h, th, nh, i, feed, KeyAt(feed, th));
    RunOne(c, tc, feed, nc);
    RunOne(h, th, feed, nh);
    var rc, rh := Serve(c, tc, OffAt(feed, tc, nc), KeyAt(feed, tc)),
        Serve(h, th, OffAt(feed, th, nh), KeyAt(feed, th));
    if rc.fate.Forwarded? {
      Simulate(bare, rc.world, rc.fate.txn, nc + 1, rh.world, rh.fate.txn, nh + 1, feed);
    }
    JoinVisit(bare, c, tc, nc, h, th, nh, rc, rh, feed);
  }

  ghost predicate Behind(bare: Bares, c: World, tc: MTxn, nc: nat, h: World, th: MTxn, nh: nat, feed: Feed) {
    && Sync(bare, c, tc, nc, h, th, nh, feed) && NeedsInstance(Current(th)) && Current(th).key != ""
    && Current(th).key in StoreOf(h, Current(th).concern) && Current(th).key !in StoreOf(c, Current(th).concern)
  }

  /** The outcome of the cold run's detour. */
  ghost predicate Detoured(c: World, tc: MTxn, nc: nat, c3: World, f: Fate<Bytes>, feed: Feed)
    requires InFlight(tc) && DbKeyed(c.db)
  {
    if f.Forwarded? then Leads(c, tc, nc, c3, f.txn, nc + 3, feed)
    else RunAlone(c, tc, feed, nc).fate == f && RunAlone(c, tc, feed, nc).world == c3
  }

  lemma {:induction false} SimulateDetour(bare: Bares, c: World, tc: MTxn, nc: nat, h: World, th: MTxn, nh: nat,
                                          feed: Feed)
    requires Behind(bare, c, tc, nc, h, th, nh, feed)
    ensures SameRun(bare, c, tc, nc, h, th, nh, feed)
    decreases Weight(c, tc), 0
  {
    var y := Current(th);
    SyncKey(bare, c, tc, nc, h, th, nh, feed);
    AlikeStores(bare, c, h, y.concern);
    if !StoredAs(c.db, y.concern, y.key, StoreOf(h, y.concern)[y.key]) {
      BareEnds(bare, c, tc, feed, nc);
    } else if Current(th).command.Read? {
      var c3, f, rh := DetourOfRead(bare, c, tc, nc, h, th, nh, feed);
      if f.Forwarded? {
        Simulate(bare, c3, f.txn, nc + 3, h, rh.fate.txn, nh + 1, feed);
      }
      JoinRead(bare, c, tc, nc, c3, f, h, th, nh, rh, feed);
    } else {
      var c3, f := DetourOfWait(bare, c, tc, nc, h, th, nh, feed);
      Simulate(bare, c3, f.txn, nc + 3, h, th, nh, feed);
      JoinWait(bare, c, tc, nc, c3, f, h, th, nh, feed);
    }
  }

  lemma DetourOfWait(bare: Bares, c: World, tc: MTxn, nc: nat, h: World, th: MTxn, nh: nat,
                     feed: Feed) returns (c3: World, f: Fate<Bytes>)
    requires Behind(bare, c, tc, nc, h, th, nh, feed) && !Current(th).command.Read?
    requires StoredAs(c.db, Current(th).concern, Current(th).key, StoreOf(h, Current(th).concern)[Current(th).key])
    ensures f.Forwarded? && Detoured(c, tc, nc, c3, f, feed) && Sync(bare, c3, f.txn, nc + 3, h, th, nh, feed)
  {
    var y := Current(th);
    SyncKey(bare, c, tc, nc, h, th, nh, feed);
    AlikeStores(bare, c, h, y.concern);
    var rec := StoreOf(h, y.concern)[y.key];
    var x, read, refresh;
    f, x, read, refresh := ColdDetour(c, tc, rec, feed, nc);
    c3 := Cached(c, y, rec, feed.offs(y.concern, y.key, nc + 2));
    DetourSync(bare, c, tc, nc, h, th, nh, feed, f, x, read, refresh);
  }

  lemma DetourOfRead(bare: Bares, c: World, tc: MTxn, nc: nat, h: World, th: MTxn, nh: nat,
                     feed: Feed) returns (c3: World, f: Fate<Bytes>, rh: Served)
    requires Behind(bare, c, tc, nc, h, th, nh, feed) && Current(th).command.Read?
    requires StoredAs(c.db, Current(th).concern, Current(th).key, StoreOf(h, Current(th).concern)[Current(th).key])
    ensures Detoured(c, tc, nc, c3, f, feed) && rh.world == h && Together(bare, Served(f, c3), nc + 3, rh, nh + 1, feed)
    ensures if rh.fate.Forwarded? then Leads(h, th, nh, h, rh.fate.txn, nh + 1, feed)
            else RunAlone(h, th, feed, nh).fate == rh.fate && RunAlone(h, th, feed, nh).world == h
  {
    var y := Current(th);
    SyncKey(bare, c, tc, nc, h, th, nh, feed);
    AlikeStores(bare, c, h, y.concern);
    var rec := StoreOf(h, y.concern)[y.key];
    var x, read, refresh;
    f, x, read, refresh := ColdDetour(c, tc, rec, feed, nc);
    c3 := Cached(c, y, rec, feed.offs(y.concern, y.key, nc + 2));
    rh := DetourForRead(bare, c, tc, nc, h, th, nh, feed, f, read, refresh, rec);
  }

  lemma JoinWait(bare: Bares, c: World, tc: MTxn, nc: nat, c3: World, f: Fate<Bytes>, h: World, th: MTxn, nh: nat,
                 feed: Feed)
    requires InFlight(tc) && InFlight(th) && DbKeyed(c.db) && DbKeyed(h.db) && f.Forwarded?
             && Detoured(c, tc, nc, c3, f, feed)
    requires SameRun(bare, c3, f.txn, nc + 3, h, th, nh, feed)
    ensures SameRun(bare, c, tc, nc, h, th, nh, feed)
  {
    SameEndCount(bare, RunAlone(c3, f.txn, feed, nc + 3), RunAlone(h, th, feed, nh), RunAlone(c, tc, feed, nc),
                 RunAlone(h, th, feed, nh));
  }

  lemma JoinRead(bare: Bares, c: World, tc: MTxn, nc: nat, c3: World, f: Fate<Bytes>, h: World, th: MTxn, nh: nat,
                 rh: Served, feed: Feed)
    requires InFlight(tc) && InFlight(th) && DbKeyed(c.db) && DbKeyed(h.db) && Detoured(c, tc, nc, c3, f, feed)
             && rh.world == h
    requires if rh.fate.Forwarded? then Leads(h, th, nh, h, rh.fate.txn, nh + 1, feed)
             else RunAlone(h, th, feed, nh).fate == rh.fate && RunAlone(h, th, feed, nh).world == h
    requires Together(bare, Served(f, c3), nc + 3, rh, nh + 1, feed)
    requires f.Forwarded? ==> SameRun(bare, c3, f.txn, nc + 3, h, rh.fate.txn, nh + 1, feed)
    ensures SameRun(bare, c, tc, nc, h, th, nh, feed)
  {
    if f.Forwarded? {
      SameEndCount(bare, RunAlone(c3, f.txn, feed, nc + 3), RunAlone(h, rh.fate.txn, feed, nh + 1),
                   RunAlone(c, tc, feed, nc), RunAlone(h, th, feed, nh));
    } else {
      SameEndCount(bare, Ending(f, c3, 1), Ending(rh.fate, h, 1), RunAlone(c, tc, feed, nc), RunAlone(h, th, feed, nh));
    }
  }

  lemma DetourForRead(bare: Bares, c: World, tc: MTxn, nc: nat, h: World, th: MTxn, nh: nat, feed: Feed, f: Fate<Bytes>,
                      read: MStep, refresh: MStep, rec: Rec<Instance, Related>) returns (rh: Served)
    requires Behind(bare, c, tc, nc, h, th, nh, feed) && Current(th).command.Read? && IsConcern(Current(th).concern)
    requires rec == StoreOf(h, Current(th).concern)[Current(th).key]
    requires AfterDetour(tc, f, read, refresh, [], feed.offs(Current(tc).concern, Current(tc).key, nc + 2))
    requires refresh.result.value.key == "" && refresh.result.value.payload == Some(Packed(rec.inst, rec.rel))
    requires f.Forwarded? ==> SameTransaction(tc, f.txn)
    ensures rh.world == h
            && Together(bare, Served(f, Cached(c, Current(th), rec,
                                               feed.offs(Current(th).concern, Current(th).key, nc + 2))), nc + 3,
                        rh, nh + 1, feed)
    ensures if rh.fate.Forwarded? then Leads(h, th, nh, h, rh.fate.txn, nh + 1, feed)
            else RunAlone(h, th, feed, nh).fate == rh.fate && RunAlone(h, th, feed, nh).world == h
  {
    var sh;
    rh, sh := WarmRead(h, th, feed, nh);
    RunOne(h, th, feed, nh);
    ReadSync(bare, c, tc, nc, h, th, nh, feed, f, read, refresh, rh, sh);
  }

  /** What a client may submit. */
  predicate Submittable(steps: seq<MStep>) {
    ApecsProvenance.Submitted(steps) &&
    forall i :: 0 <= i < |steps| ==> !IsTxnProhibitedCommand(steps[i].command)
  }

  lemma {:induction false} ExpandPlanned(steps: seq<MStep>)
    requires Submittable(steps)
    ensures var e := ExpandAll(steps);
            && (e != [] ==> Planned(e[0]) && !IsUpdate(e[0]) && e[0].system.Process?)
            && PlannedAfter(e)
  {
    if steps != [] {
      var e, rest, k := ExpandAll(steps), ExpandAll(steps[1..]), |Expand(steps[0])|;
      assert Submittable(steps[1..]) by {
        assert forall i :: 0 <= i < |steps[1..]| ==> steps[1..][i] == steps[i + 1];
      }
      ExpandPlanned(steps[1..]);
      forall i | 0 < i < |e| ensures Planned(e[i]) && MayFollow(e[i - 1], e[i]) {
        if i > k {
          assert e[i] == rest[i - k] && e[i - 1] == rest[i - k - 1];
        } else if i == k {
          assert e[i] == rest[0];
        }
      }
    }
  }

  /** However keys are spread over partitions, reading each partition in order is such a feed. */
  lemma HashedFeed(hash: string -> int, start: int, keys: nat -> string, routes: nat -> string)
    requires (forall i: nat, j: nat :: i != j ==> keys(i) != keys(j)) && forall i: nat :: keys(i) != ""
    ensures Increasing(Feed((concern, k, n) => CompoundOffset(0, hash(k), start + n), keys, routes))
  {
  }

  /** No create comes with a key that will be made up, or with one whose related bytes only
      the warm cache has. */
  ghost predicate KeysSafe(c: World, h: World, feed: Feed, steps: seq<MStep>) {
    forall i :: 0 <= i < |steps| && steps[i].command.Create? ==>
                  CreateSafe(c, h, feed, steps[i].concern, GivenKey(steps[i]))
  }

  lemma {:induction false} ExpandSafe(c: World, h: World, feed: Feed, steps: seq<MStep>)
    requires KeysSafe(c, h, feed, steps)
    ensures CreatesSafe(c, h, feed, ExpandAll(steps))
  {
    if steps != [] {
      var rest := steps[1..];
      assert forall i :: 0 <= i < |rest| ==> rest[i] == steps[i + 1];
      ExpandSafe(c, h, feed, rest);
      forall step | step in ExpandAll(steps) && IsCreate(step)
        ensures CreateSafe(c, h, feed, step.concern, GivenKey(step)) {
        if step !in ExpandAll(rest) {
          assert step in Expand(steps[0]);
          assert GivenKey(step) == GivenKey(steps[0]) && step.concern == steps[0].concern && steps[0].command.Create?;
        }
      }
    }
  }

  /** What two runs of a transaction start from: a warm world and a
      cold one that has lost records, those in `bare` stored without related value. */
  ghost predicate Started(bare: Bares, c: World, h: World, steps: seq<MStep>, feed: Feed) {
    && steps != [] && Submittable(steps) && KeysSafe(c, h, feed, steps)
    && Alike(bare, c, h) && DbKeyed(c.db) && DbKeyed(h.db)
    && Increasing(feed) && Ahead(c, feed, 0) && Ahead(h, feed, 0) && Unused(h, feed, 0)
  }

  /** The same transaction against caches that hold everything stored and against caches that
      have lost any part of it, over databases with the same values: both runs complete with
      the same result, or fail at the same step with the same code, and leave the same
      values behind; or the cold run stops at the storage read of a lost record whose item
      was created and never updated. */
  lemma ColdOrBare(bare: Bares, c: World, h: World, id: string, target: Option<TopicTarget>, uponError: UponError,
                   steps: seq<MStep>, feed: Feed)
    requires id != "" && Started(bare, c, h, steps, feed)
    ensures var txn := NewApecsTxn(id, None, target, uponError, steps);
            txn.Some? ==> InFlight(txn.value) && Ends(bare, RunAlone(c, txn.value, feed, 0),
                                                      RunAlone(h, txn.value, feed, 0))
  {
    var txn := NewApecsTxn(id, None, target, uponError, steps);
    ApecsProvenance.NewTxnChained(id, None, target, uponError, steps);
    if txn.Some? {
      SubmittedSync(bare, c, h, txn.value, steps, feed);
      Simulate(bare, c, txn.value, 0, h, txn.value, 0, feed);
    }
  }

  /** Without such records both runs end the same way. */
  lemma ColdEqualsWarm(c: World, h: World, id: string, target: Option<TopicTarget>, uponError: UponError,
                       steps: seq<MStep>, feed: Feed)
    requires id != "" && Started(iset{}, c, h, steps, feed)
    ensures var txn := NewApecsTxn(id, None, target, uponError, steps);
            txn.Some? ==> InFlight(txn.value) && SameEnd(iset{}, RunAlone(c, txn.value, feed, 0),
                                                         RunAlone(h, txn.value, feed, 0))
  {
    ColdOrBare(iset{}, c, h, id, target, uponError, steps, feed);
  }

  lemma SubmittedSync(bare: Bares, c: World, h: World, t: MTxn, steps: seq<MStep>, feed: Feed)
    requires Started(bare, c, h, steps, feed) && InFlight(t) && t.currentStepIdx == 0
             && t.forwardSteps == ExpandAll(steps)
    ensures Sync(bare, c, t, 0, h, t, 0, feed)
  {
    ExpandPlanned(steps);
    ExpandSafe(c, h, feed, steps);
    assert Pending(t) == ExpandAll(steps) && Finished(t) == [];
    CurrentInFlight(t);
  }

  // ---------- a consequence for updates ----------

  predicate KeylessValidation(step: MStep) { IsValidateUpdate(step) && step.key == "" }

  /** A pending update validation: it has no key of its own. */
  predicate AwaitsUpdate(txn: MTxn)
    requires InRange(txn)
  {
    exists i :: 0 <= i < |Pending(txn)| && KeylessValidation(Pending(txn)[i])
  }

  /** A result that names a key is followed by a step that has one. */
  predicate KeyFollowed(o: Outcome<Bytes>) {
    o.result.Some? && o.result.value.code.Ok? ==> o.result.value.key == ""
                                                  || (o.addSteps != [] && o.addSteps[0].key != "")
  }

  lemma LogicKeyFollowed(concern: string, command: Command, a: LogicArgs, store: MStore)
    ensures KeyFollowed(HandleLogic(concern, command, a, store).outcome)
  {
  }

  lemma CrudKeyFollowed(concern: string, command: Command, a: CrudArgs, db: MDb)
    requires a.freshKey != ""
    ensures KeyFollowed(HandleCrud(concern, Storage, command, a, db).outcome)
  {
  }

  lemma NamedKeyFollowed(w: World, step: MStep, inst: Option<Bytes>, off: CompoundOffset, freshKey: string)
    requires !step.system.StorageScnd? && freshKey != ""
    ensures KeyFollowed(HandleCommand(w, step, inst, off, freshKey).outcome)
  {
    if step.system.Process? {
      var i := if inst.Some? && inst.value.Inst? then Some(inst.value.inst) else None;
      LogicKeyFollowed(step.concern, step.command, LogicArgs(step.key, i, step.payload, off), StoreOf(w, step.concern));
    } else if step.system.Storage? && step.cmpdOffset.Some? {
      CrudKeyFollowed(step.concern, step.command, CrudArgs(step.key, step.payload, step.cmpdOffset.value, freshKey),
                      w.db);
    }
  }

  /** No step gets its key from the step before, whatever the state of the world. */
  lemma KeyGivenKept(w: World, txn: MTxn, off: CompoundOffset, freshKey: string)
    requires InFlight(txn) && KeyGiven(txn) && !Current(txn).system.StorageScnd? && freshKey != "" && DbKeyed(w.db)
    requires Serve(w, txn, off, freshKey).fate.Forwarded?
    ensures InFlight(Serve(w, txn, off, freshKey).fate.txn) && KeyGiven(Serve(w, txn, off, freshKey).fate.txn)
  {
    KeyedAdmission(w, txn, off);
    CurrentInFlight(txn);
    if AdmitAt(w, txn, off).Missed? {
      ServeMissed(w, txn, off, freshKey);
      CurrentInFlight(Serve(w, txn, off, freshKey).fate.txn);
    } else if AdmitAt(w, txn, off).Admitted? && AnsweredOk(Answered(w, txn, off, freshKey)) {
      AnsweredIs(w, txn, off, freshKey);
      NamedKeyFollowed(w, Arrived(txn, off), AdmitAt(w, txn, off).inst, off, freshKey);
      ServeAdmitted(w, txn, off, freshKey);
      var r := Serve(w, txn, off, freshKey);
      CurrentInFlight(r.fate.txn);
      KeyGivenNext(txn, r.fate, SettledStep(w, txn, off, freshKey), Answered(w, txn, off, freshKey).outcome.addSteps,
                   off);
    } else {
      ServeStops(w, txn, off, freshKey);
    }
  }

  /** A transaction with an update ahead of it never completes: in every world a visit
      leaves the update's validation pending or ends on the error topic. */
  lemma UpdateNeverCompletes(w: World, txn: MTxn, off: CompoundOffset, freshKey: string)
    requires InFlight(txn) && KeyGiven(txn) && AwaitsUpdate(txn) && !Current(txn).system.StorageScnd? && freshKey != ""
             && DbKeyed(w.db)
    ensures var f := Serve(w, txn, off, freshKey).fate;
            !f.Completed? && (f.Forwarded? ==> InFlight(f.txn) && KeyGiven(f.txn) && AwaitsUpdate(f.txn))
  {
    CurrentInFlight(txn);
    KeyedAdmission(w, txn, off);
    var j :| 0 <= j < |Pending(txn)| && KeylessValidation(Pending(txn)[j]);
    if Serve(w, txn, off, freshKey).fate.Forwarded? { KeyGivenKept(w, txn, off, freshKey); }
    if AdmitAt(w, txn, off).Missed? {
      ServeMissed(w, txn, off, freshKey);
      UpdateStaysBehind(txn, Serve(w, txn, off, freshKey).fate.txn, Arrived(txn, off), off, j);
    } else if AdmitAt(w, txn, off).Admitted? && AnsweredOk(Answered(w, txn, off, freshKey)) {
      ServeAdmitted(w, txn, off, freshKey);
      UpdateStaysAhead(txn, Serve(w, txn, off, freshKey).fate, SettledStep(w, txn, off, freshKey),
                       Answered(w, txn, off, freshKey).outcome.addSteps, off, j);
    } else {
      ServeStops(w, txn, off, freshKey);
    }
  }

  lemma UpdateStaysBehind(txn: MTxn, t: MTxn, step: MStep, off: CompoundOffset, j: nat)
    requires DetourOf(txn, t, step, off) && 0 < j < |Pending(txn)| && KeylessValidation(Pending(txn)[j])
    ensures AwaitsUpdate(t)
  {
    var i := j + if step.command.Read? then 0 else 1;
    assert Pending(t)[i] == Pending(txn)[j];
  }

  lemma UpdateStaysAhead(txn: MTxn, f: Fate<Bytes>, settled: MStep, add: seq<MStep>, off: CompoundOffset, j: nat)
    requires SuccessOf(txn, f, settled, add, off) && 0 < j < |Pending(txn)| && KeylessValidation(Pending(txn)[j])
    ensures f.Forwarded? && AwaitsUpdate(f.txn)
  {
    var i, rest := |add| + j - 1, add + Pending(txn)[1..];
    assert rest[i] == Pending(txn)[j];
    assert Pending(f.txn)[i] == rest[i] || Pending(f.txn)[i] == Inherit(rest[i], settled, off);
  }

  /** Hence every transaction that runs alone and has an update in it fails. */
  lemma {:induction false} UpdateFails(w: World, txn: MTxn, feed: Feed, n: nat)
    requires InFlight(txn) && ApecsProvenance.Chained(txn) && KeyGiven(txn) && AwaitsUpdate(txn) && DbKeyed(w.db)
             && MakesKeys(feed)
    ensures RunAlone(w, txn, feed, n).fate.Failed?
    decreases Weight(w, txn)
  {
    var off, key := OffAt(feed, txn, n), KeyAt(feed, txn);
    UpdateNeverCompletes(w, txn, off, key);
    ServeLawful(w, txn, off, key);
    RunOne(w, txn, feed, n);
    var r := Serve(w, txn, off, key);
    if r.fate.Forwarded? {
      UpdateFails(r.world, r.fate.txn, feed, n + 1);
    }
  }

  lemma {:induction false} ExpandAwaitsUpdate(steps: seq<MStep>, j: nat)
    requires ApecsProvenance.Submitted(steps) && j < |steps| && steps[j].command.Update?
    ensures exists i :: 0 <= i < |ExpandAll(steps)| && KeylessValidation(ExpandAll(steps)[i])
  {
    var e, first, rest := ExpandAll(steps), Expand(steps[0]), ExpandAll(steps[1..]);
    assert e == first + rest;
    if j == 0 {
      assert e[0] == first[0] && KeylessValidation(e[0]);
    } else {
      ExpandAwaitsUpdate(steps[1..], j - 1);
      var i :| 0 <= i < |rest| && KeylessValidation(rest[i]);
      assert e[|first| + i] == rest[i];
    }
  }

  /** Whatever a client submits with an UPDATE in it is refused or fails, from any state of
      caches and database. */
  lemma SubmittedUpdateFails(w: World, id: string, target: Option<TopicTarget>, uponError: UponError, steps: seq<MStep>,
                             feed: Feed, j: nat)
    requires id != "" && ApecsProvenance.Submitted(steps) && j < |steps| && steps[j].command.Update?
    requires DbKeyed(w.db) && MakesKeys(feed)
    ensures var txn := NewApecsTxn(id, None, target, uponError, steps);
            txn.None? || (InFlight(txn.value) && RunAlone(w, txn.value, feed, 0).fate.Failed?)
  {
    var txn := NewApecsTxn(id, None, target, uponError, steps);
    ApecsProvenance.NewTxnChained(id, None, target, uponError, steps);
    if txn.Some? {
      ExpandAwaitsUpdate(steps, j);
      assert Pending(txn.value) == ExpandAll(steps);
      UpdateFails(w, txn.value, feed, 0);
    }
  }
}
