/**
 A cold cache equals a warm cache over whole runs: `ColdEqualsWarm`. Two runs of the same
 transaction, one against caches that have lost any of their records, end the same way and
 leave the same values; the step lists differ by injected storage reads with their
 refreshes, and by such a pair standing in for a read.
 */
module RpgColdRuns {
  import opened Wrappers
  import opened Offsets
  import opened ApecsTxns
  import opened ApecsRunners
  import opened ApecsInvariants
  import opened RamDbs
  import opened Rpg
  import opened RpgWorlds
  import opened RpgTermination
  import opened RpgCold

  // ---------- finished steps ----------

  function Last<T>(s: seq<T>): T
    requires s != []
  {
    s[|s| - 1]
  }

  /** A step finished in both runs: the same but for offsets. */
  predicate SameDone(x: MStep, y: MStep) {
    && x.system == y.system && x.concern == y.concern && x.command == y.command && x.key == y.key
    && x.payload == y.payload
    && DoneOk(x) && DoneOk(y) && x.result.value.payload == y.result.value.payload
    && x.result.value.instance == y.result.value.instance
  }

  predicate IsDetour(read: MStep, refresh: MStep) {
    && read.system.Storage? && read.command.Read? && refresh.system.Process? && refresh.command.RefreshInstance?
    && read.concern == refresh.concern && read.key == refresh.key && DoneOk(read) && DoneOk(refresh)
  }

  predicate StandsForRead(refresh: MStep, y: MStep) {
    && y.system.Process? && y.command.Read? && y.concern == refresh.concern && y.key == refresh.key
    && DoneOk(y) && DoneOk(refresh) && y.result.value.payload == refresh.result.value.payload
  }

  /** The finished steps of the cold run are those of the warm run, but for detours and
      pairs that stand for a read. */
  ghost predicate Matches(c: seq<MStep>, h: seq<MStep>)
    decreases |c|
  {
    || (c == [] && h == [])
    || (c != [] && h != [] && SameDone(Last(c), Last(h)) && Matches(c[..|c| - 1], h[..|h| - 1]))
    || (|c| >= 2 && IsDetour(c[|c| - 2], c[|c| - 1])
        && (Matches(c[..|c| - 2], h) || (h != [] && StandsForRead(c[|c| - 1], Last(h))
                                         && Matches(c[..|c| - 2], h[..|h| - 1]))))
  }

  lemma {:induction false} MatchesCreates(c: seq<MStep>, h: seq<MStep>)
    requires Matches(c, h)
    ensures Creates(c) == Creates(h)
    decreases |c|
  {
    if c != [] {
      var n := |c| - 1;
      if h != [] && SameDone(Last(c), Last(h)) && Matches(c[..n], h[..|h| - 1]) {
        MatchesCreates(c[..n], h[..|h| - 1]);
      } else {
        assert c[..n][..n - 1] == c[..n - 1];
        if Matches(c[..n - 1], h) {
          MatchesCreates(c[..n - 1], h);
        } else {
          MatchesCreates(c[..n - 1], h[..|h| - 1]);
        }
      }
    }
  }

  lemma MatchesBoth(c: seq<MStep>, h: seq<MStep>, x: MStep, y: MStep)
    requires Matches(c, h) && SameDone(x, y)
    ensures Matches(c + [x], h + [y])
  {
    assert (c + [x])[..|c|] == c && (h + [y])[..|h|] == h;
  }

  lemma MatchesDetour(c: seq<MStep>, h: seq<MStep>, read: MStep, refresh: MStep)
    requires Matches(c, h) && IsDetour(read, refresh)
    ensures Matches(c + [read] + [refresh], h)
  {
    var d := c + [read] + [refresh];
    assert d[..|d| - 2] == c;
  }

  lemma MatchesRead(c: seq<MStep>, h: seq<MStep>, read: MStep, refresh: MStep, y: MStep)
    requires Matches(c, h) && IsDetour(read, refresh) && StandsForRead(refresh, y)
    ensures Matches(c + [read] + [refresh], h + [y])
  {
    var d := c + [read] + [refresh];
    assert d[..|d| - 2] == c && (h + [y])[..|h|] == h;
  }

  // ---------- pending steps ----------

  predicate IsCreate(step: MStep) { step.system.Storage? && step.command.Create? }

  /** The key an instance to create comes with. */
  function GivenKey(step: MStep): string {
    if step.payload.Some? && PayloadInst(step.payload.value).Some? then InstKey(PayloadInst(step.payload.value).value)
    else ""
  }

  /** A warm cache has related bytes that the cold one has lost. */
  predicate LostRelated(c: World, h: World, concern: string, k: string) {
    k in StoreOf(h, concern) && k !in StoreOf(c, concern) && StoreOf(h, concern)[k].rel.Some?
  }

  /** A create under a given key: no key to be made up later, and no related bytes lost. */
  ghost predicate CreateSafe(c: World, h: World, feed: Feed, concern: string, k: string) {
    k != "" ==> !LostRelated(c, h, concern, k) && forall m: nat :: feed.keys(m) != k
  }

  ghost predicate CreatesSafe(c: World, h: World, feed: Feed, p: seq<MStep>) {
    forall step :: step in p && IsCreate(step) ==> CreateSafe(c, h, feed, step.concern, GivenKey(step))
  }

  /** No related bytes are lost on the way. */
  ghost predicate Shrinks(c: World, h: World, c': World, h': World) {
    forall n, k :: LostRelated(c', h', n, k) ==> LostRelated(c, h, n, k)
  }

  lemma SafeNext(c: World, h: World, c': World, h': World, feed: Feed, p: seq<MStep>, add: seq<MStep>, done: MStep,
                 off: CompoundOffset)
    requires CreatesSafe(c, h, feed, p) && p != [] && Shrinks(c, h, c', h') && done.result.Some?
    requires forall i :: 0 <= i < |add| ==> !IsCreate(add[i])
    ensures CreatesSafe(c', h', feed, InheritFirst(add + p[1..], done, off))
  {
    var rest := add + p[1..];
    var q := InheritFirst(rest, done, off);
    forall step | step in q && IsCreate(step) ensures CreateSafe(c', h', feed, step.concern, GivenKey(step)) {
      var i :| 0 <= i < |q| && q[i] == step;
      assert IsCreate(rest[i]) && GivenKey(step) == GivenKey(rest[i]) && step.concern == rest[i].concern;
      assert rest[i] == p[i - |add| + 1];
      assert rest[i] in p;
    }
  }

  /** A step still ahead: submitted, or added by a handler. */
  predicate Planned(step: MStep) {
    || (step.system.Process? && !IsInstanceStoreStep(step)
        && (step.command.ValidateUpdate? || step.command.ValidateCreate? ==> step.key == ""))
    || (IsCreate(step) && step.cmpdOffset.None?)
  }

  predicate IsUpdate(step: MStep) { step.system.Process? && step.command.Update? }

  predicate IsValidateUpdate(step: MStep) { step.system.Process? && step.command.ValidateUpdate? }

  predicate IsValidateCreate(step: MStep) { step.system.Process? && step.command.ValidateCreate? }

  /** A step may follow another: an update and a create only their validation. */
  predicate MayFollow(prev: MStep, step: MStep) {
    && (IsUpdate(step) ==> IsValidateUpdate(prev))
    && (step.system.Storage? ==> IsValidateCreate(prev) && prev.concern == step.concern && prev.payload == step.payload)
  }

  /** Everything behind the current step. */
  predicate PlannedAfter(p: seq<MStep>) {
    forall i :: 0 < i < |p| ==> Planned(p[i]) && MayFollow(p[i - 1], p[i])
  }

  /** The current step and what is known of it. */
  ghost predicate FrontOk(c: World, h: World, x: MStep, y: MStep) {
    if y.system.Process? then
      && !IsUpdate(y) && (y.command.ValidateUpdate? || y.command.ValidateCreate? ==> y.key == "")
      && (IsInstanceStoreStep(y) ==> y.key != "" && SameAt(StoreOf(c, y.concern), StoreOf(h, y.concern), y.key))
      && (y.command.RefreshInstance? && IsConcern(y.concern) ==> Lookup(c.db, y.concern, y.key).Some?)
    else
      && y.system.Storage? && x.cmpdOffset.Some? && y.cmpdOffset.Some?
      && SameLine(x.cmpdOffset.value, y.cmpdOffset.value)
      && Newest(c.db, y.concern, x.cmpdOffset.value) && Newest(h.db, y.concern, y.cmpdOffset.value)
      && (|| (y.command.Create? && y.payload.Some? && y.payload.value.Inst?)
          || (y.command.Delete? && y.key != "" && SameAt(StoreOf(c, y.concern), StoreOf(h, y.concern), y.key)))
  }

  predicate SamePending(p: seq<MStep>, q: seq<MStep>) { p != [] && q != [] && SameStep(p[0], q[0]) && p[1..] == q[1..] }

  /** The step has its own key, needs none, or finds none. */
  predicate KeyGiven(txn: MTxn)
    requires InRange(txn)
  {
    Current(txn).key != "" || IsKeylessStep(Current(txn)) || ResolveKey(txn).None?
  }

  // ---------- offsets and keys ----------

  /** Messages sent by the same key arrive in the same partition, and later messages of a
      partition at higher offsets. */
  ghost predicate Increasing(feed: Feed) {
    && (forall n, k, i: nat, j: nat :: SameLine(feed.offs(n, k, i), feed.offs(n, k, j)))
    && (forall n, k, l, i: nat, j: nat :: i < j ==> Newer(feed.offs(n, l, j), feed.offs(n, k, i)))
    && (forall i: nat, j: nat :: i != j ==> feed.keys(i) != feed.keys(j))
    && MakesKeys(feed)
  }

  ghost predicate MakesKeys(feed: Feed) { forall i: nat :: feed.keys(i) != "" }

  /** Every message from the n-th on arrives after whatever its partition has recorded in the
      database, and after what is cached for its key. */
  ghost predicate Ahead(w: World, feed: Feed, n: nat) {
    && (forall concern, k, m: nat :: m >= n && k in StoreOf(w, concern) ==>
                                       OffsetGT(feed.offs(concern, k, m), StoreOf(w, concern)[k].cmpdOffset))
    && (forall concern, k, m: nat :: m >= n ==> Newest(w.db, concern, feed.offs(concern, k, m)))
  }

  ghost predicate StepAhead(step: MStep, feed: Feed, n: nat) {
    step.system.Storage? && step.cmpdOffset.Some? ==> OffAhead(step.concern, step.cmpdOffset.value, feed, n)
  }

  /** Every message from the n-th on is newer in its partition. */
  ghost predicate OffAhead(concern: string, o: CompoundOffset, feed: Feed, n: nat) {
    forall k, m: nat :: m >= n ==> Newer(feed.offs(concern, k, m), o)
  }

  /** The keys for creates still to come are unknown everywhere. */
  ghost predicate Unused(h: World, feed: Feed, created: nat) {
    forall m: nat, n :: m >= created ==> feed.keys(m) !in StoreOf(h, n) && Lookup(h.db, n, feed.keys(m)).None?
  }

  // ---------- the relation between the runs ----------

  ghost predicate SyncTxns(c: World, tc: MTxn, h: World, th: MTxn) {
    && InFlight(tc) && InFlight(th) && SameTransaction(tc, th)
    && SamePending(Pending(tc), Pending(th)) && PlannedAfter(Pending(th)) && FrontOk(c, h, Current(tc), Current(th))
    && KeyGiven(tc) && KeyGiven(th) && Matches(Finished(tc), Finished(th))
  }

  ghost predicate SyncWorlds(bare: Bares, c: World, nc: nat, h: World, nh: nat, feed: Feed, x: MStep, y: MStep,
                             created: nat) {
    && DbKeyed(c.db) && DbKeyed(h.db) && Alike(bare, c, h)
    && Ahead(c, feed, nc) && Ahead(h, feed, nh) && StepAhead(x, feed, nc) && StepAhead(y, feed, nh)
    && Unused(h, feed, created)
  }

  ghost predicate Sync(bare: Bares, c: World, tc: MTxn, nc: nat, h: World, th: MTxn, nh: nat, feed: Feed) {
    && Increasing(feed) && SyncTxns(c, tc, h, th) && CreatesSafe(c, h, feed, Pending(th))
    && SyncWorlds(bare, c, nc, h, nh, feed, Current(tc), Current(th), Creates(Finished(th)))
  }

  ghost predicate SameEnd(bare: Bares, c: Ending, h: Ending) {
    && Alike(bare, c.world, h.world) && InRange(c.fate.txn) && InRange(h.fate.txn)
    && (|| (&& c.fate.Completed? && h.fate.Completed? && Matches(c.fate.txn.forwardSteps, h.fate.txn.forwardSteps)
            && AllOk(c.fate.txn.forwardSteps) && AllOk(h.fate.txn.forwardSteps)
            && Last(c.fate.txn.forwardSteps).result.value.payload == Last(h.fate.txn.forwardSteps).result.value.payload)
        || (c.fate.Failed? && h.fate.Failed? && c.fate.code == h.fate.code
            && Matches(Finished(c.fate.txn), Finished(h.fate.txn))))
  }

  // ---------- a step that succeeds in both ----------

  lemma BothSucceed(tc: MTxn, fc: Fate<Bytes>, sc: MStep, offc: CompoundOffset, th: MTxn, fh: Fate<Bytes>, sh: MStep,
                    offh: CompoundOffset, add: seq<MStep>)
    requires SuccessOf(tc, fc, sc, add, offc) && SuccessOf(th, fh, sh, add, offh) && SameDone(sc, sh)
    requires SamePending(Pending(tc), Pending(th)) && Matches(Finished(tc), Finished(th))
    ensures fc.Forwarded? <==> fh.Forwarded?
    ensures fc.Forwarded? ==> SamePending(Pending(fc.txn), Pending(fh.txn))
                              && Matches(Finished(fc.txn), Finished(fh.txn))
    ensures fc.Completed? ==> && Matches(fc.txn.forwardSteps, fh.txn.forwardSteps) && AllOk(fc.txn.forwardSteps)
                              && AllOk(fh.txn.forwardSteps)
                              && Last(fc.txn.forwardSteps).result.value.payload
                                == Last(fh.txn.forwardSteps).result.value.payload
  {
    MatchesBoth(Finished(tc), Finished(th), sc, sh);
    assert Pending(tc)[1..] == Pending(th)[1..];
    if fc.Forwarded? {
      SamePendingNext(add + Pending(th)[1..], sc, offc, sh, offh);
    } else {
      AllOkLast(Finished(tc), sc);
      AllOkLast(Finished(th), sh);
    }
  }

  lemma AllOkLast(done: seq<MStep>, step: MStep)
    requires AllOk(done) && DoneOk(step)
    ensures AllOk(done + [step]) && Last(done + [step]) == step
  {
  }

  lemma SamePendingNext(rest: seq<MStep>, sc: MStep, offc: CompoundOffset, sh: MStep, offh: CompoundOffset)
    requires rest != [] && DoneOk(sc) && DoneOk(sh) && sc.result.value.payload == sh.result.value.payload
    ensures SamePending(InheritFirst(rest, sc, offc), InheritFirst(rest, sh, offh))
  {
    assert InheritFirst(rest, sc, offc)[1..] == rest[1..];
    assert InheritFirst(rest, sh, offh)[1..] == rest[1..];
  }

  /** What is added in front is planned, but for one step right behind. */
  lemma PlannedNext(p: seq<MStep>, add: seq<MStep>, done: MStep, off: CompoundOffset)
    requires p != [] && PlannedAfter(p) && !IsValidateUpdate(p[0]) && done.result.Some?
             && (IsValidateCreate(p[0]) ==> add == [])
    requires forall i :: 0 < i < |add| ==> Planned(add[i]) && !IsUpdate(add[i]) && add[i].system.Process?
    ensures var q := InheritFirst(add + p[1..], done, off);
            && PlannedAfter(q)
            && (add == [] && q != [] ==> |p| > 1 && Planned(p[1]) && !IsUpdate(p[1]) && MayFollow(p[0], p[1])
                                         && q[0] == Inherit(p[1], done, off))
            && (add != [] ==> q[0] == Inherit(add[0], done, off))
  {
    var rest := add + p[1..];
    var q := InheritFirst(rest, done, off);
    forall i | 0 < i < |q| ensures Planned(q[i]) && MayFollow(q[i - 1], q[i]) {
      assert q[i] == rest[i];
      if i < |add| {
        assert q[i] == add[i];
      } else {
        var j := i - |add| + 1;
        assert q[i] == p[j] && MayFollow(p[j - 1], p[j]);
        if i > |add| {
          assert rest[i - 1] == p[j - 1];
          assert SameKind(q[i - 1], p[j - 1]) && (IsValidateCreate(p[j - 1]) ==> q[i - 1].payload == p[j - 1].payload);
        }
      }
    }
  }

  /** After a step whose result names no key, the next step has only its own. */
  lemma KeyGivenNext(txn: MTxn, fate: Fate<Bytes>, settled: MStep, add: seq<MStep>, off: CompoundOffset)
    requires SuccessOf(txn, fate, settled, add, off) && fate.Forwarded?
    requires settled.result.value.key == "" || Current(fate.txn).key != ""
    ensures KeyGiven(fate.txn)
  {
    var n := fate.txn.currentStepIdx;
    assert Finished(fate.txn)[n - 1] == settled;
    assert fate.txn.forwardSteps[n - 1] == settled;
  }

  // ---------- offsets and unused keys after a PROCESS step ----------

  lemma AheadAfter(w: World, after: World, concern: string, key: string, route: string, feed: Feed, n: nat)
    requires Increasing(feed) && Ahead(w, feed, n) && after.db == w.db
    requires OnlyAt(StoreOf(w, concern), StoreOf(after, concern), key, feed.offs(concern, route, n))
    requires key in StoreOf(after, concern) ==> route == key
    requires forall m :: m != concern ==> StoreOf(after, m) == StoreOf(w, m)
    ensures Ahead(after, feed, n + 1)
  {
    forall m, k, i: nat | i >= n + 1 && k in StoreOf(after, m)
      ensures OffsetGT(feed.offs(m, k, i), StoreOf(after, m)[k].cmpdOffset)
    {
      assert SameLine(feed.offs(m, k, i), feed.offs(m, k, n)) && Newer(feed.offs(m, k, i), feed.offs(m, k, n));
    }
  }

  lemma UnusedAfter(h: World, ah: World, concern: string, key: string, offh: CompoundOffset, feed: Feed, created: nat)
    requires Unused(h, feed, created) && ah.db == h.db
    requires OnlyAt(StoreOf(h, concern), StoreOf(ah, concern), key, offh)
    requires forall n :: n != concern ==> StoreOf(ah, n) == StoreOf(h, n)
    requires key in StoreOf(ah, concern) && key !in StoreOf(h, concern) ==> Lookup(h.db, concern, key).Some?
    ensures Unused(ah, feed, created)
  {
    forall m: nat, n | m >= created ensures feed.keys(m) !in StoreOf(ah, n) && Lookup(ah.db, n, feed.keys(m)).None? {
      assert feed.keys(m) !in StoreOf(h, n) && Lookup(h.db, n, feed.keys(m)).None?;
    }
  }

  /** What a successful PROCESS command leaves behind. */
  ghost predicate LogicPlan(y: MStep, key: string, store: MStore, a: Answer<MStore>) {
    && a.outcome.result.Some? && a.outcome.result.value.key == ""
    && (IsValidateCreate(y) ==> a.outcome.addSteps == [] && y.payload.Some? && y.payload.value.Inst?)
    && (key in store ==> key in a.state || y.command.FlushInstance?)
    && (y.command.RefreshInstance? ==> key in a.state) && (y.command.FlushInstance? ==> key !in a.state)
    && (if y.command.Delete? then
          |a.outcome.addSteps| == 1 && a.state == store
          && var d := a.outcome.addSteps[0];
          d.system.Storage? && d.command.Delete? && d.concern == y.concern && d.key == key && d.cmpdOffset.None?
        else
          forall i :: 0 <= i < |a.outcome.addSteps| ==> var t := a.outcome.addSteps[i];
          Planned(t) && !IsUpdate(t) && t.system.Process?)
  }

  lemma LogicPlans(y: MStep, a: LogicArgs, store: MStore)
    requires y.system.Process? && !y.command.Update? && (IsInstanceStoreStep(y) ==> a.inst.None?)
             && a.payload == y.payload
    requires var r := HandleLogic(y.concern, y.command, a, store);
             r.outcome.result.Some? && r.outcome.result.value.code.Ok?
    ensures LogicPlan(y, a.key, store, HandleLogic(y.concern, y.command, a, store))
  {
    if y.command.Platform? {
      PlatformPlans(y, a, store);
    }
  }

  lemma PlatformPlans(y: MStep, a: LogicArgs, store: MStore)
    requires y.system.Process? && y.command.Platform?
    requires var r := HandlePlatform(y.concern, y.command.name, a, store);
             r.outcome.result.Some? && r.outcome.result.value.code.Ok?
    ensures LogicPlan(y, a.key, store, HandlePlatform(y.concern, y.command.name, a, store))
  {
  }

  ghost predicate CommandPlan(y: MStep, w: World, a: Answer<World>) {
    && IsConcern(y.concern)
    && LogicPlan(y, y.key, StoreOf(w, y.concern), Answer(a.outcome, StoreOf(a.state, y.concern)))
    && (y.command.Platform? ==> !NoCommand(y.payload))
  }

  lemma CommandPlans(w: World, y: MStep, inst: Option<Bytes>, off: CompoundOffset, freshKey: string)
    requires y.system.Process? && !y.command.Update? && (IsInstanceStoreStep(y) ==> inst.None?)
    requires AnsweredOk(HandleCommand(w, y, inst, off, freshKey))
    ensures CommandPlan(y, w, HandleCommand(w, y, inst, off, freshKey))
  {
    var i := if inst.Some? && inst.value.Inst? then Some(inst.value.inst) else None;
    var a := LogicArgs(y.key, i, y.payload, off);
    LogicPlans(y, a, StoreOf(w, y.concern));
    WithStoreOf(w, y.concern, HandleLogic(y.concern, y.command, a, StoreOf(w, y.concern)).state);
  }

  /** Planned steps make good fronts. */
  lemma PlannedFront(c: World, h: World, step: MStep, sc: MStep, offc: CompoundOffset, sh: MStep, offh: CompoundOffset)
    requires Planned(step) && !IsUpdate(step) && DoneOk(sc) && DoneOk(sh) && step.system.Process?
    ensures FrontOk(c, h, Inherit(step, sc, offc), Inherit(step, sh, offh))
  {
  }

  lemma StepAheadNext(step: MStep, done: MStep, concern: string, route: string, feed: Feed, n: nat)
    requires Increasing(feed) && done.result.Some? && done.cmpdOffset == Some(feed.offs(concern, route, n))
             && step.cmpdOffset.None?
    requires step.system.Storage? ==> step.concern == concern
    ensures StepAhead(Inherit(step, done, feed.offs(concern, route, n)), feed, n + 1)
  {
  }

  /** The next front after a PROCESS step succeeded in both runs. */
  lemma ProcessFront(c: World, h: World, ac: World, ah: World, y: MStep, route: string, p: seq<MStep>, add: seq<MStep>,
                     sc: MStep, sh: MStep, feed: Feed, nc: nat, nh: nat)
    requires Increasing(feed) && p != [] && PlannedAfter(p) && SameKind(p[0], y) && y.system.Process?
             && !IsValidateUpdate(y) && IsConcern(y.concern)
    requires IsValidateCreate(y) ==> p[0].payload == y.payload
    requires DoneOk(sc) && DoneOk(sh) && sc.cmpdOffset == Some(feed.offs(y.concern, route, nc))
             && sh.cmpdOffset == Some(feed.offs(y.concern, route, nh))
    requires Ahead(c, feed, nc) && Ahead(h, feed, nh) && ac.db == c.db && ah.db == h.db
    requires LogicPlan(y, y.key, StoreOf(h, y.concern), Answer(Outcome(sh.result, add), StoreOf(ah, y.concern)))
    requires y.command.Delete? ==> y.key != "" && SameAt(StoreOf(ac, y.concern), StoreOf(ah, y.concern), y.key)
    requires add + p[1..] != []
    ensures var offc, offh := feed.offs(y.concern, route, nc), feed.offs(y.concern, route, nh);
            var qc, qh := InheritFirst(add + p[1..], sc, offc), InheritFirst(add + p[1..], sh, offh);
            && PlannedAfter(qh) && FrontOk(ac, ah, qc[0], qh[0]) && StepAhead(qc[0], feed, nc + 1)
            && StepAhead(qh[0], feed, nh + 1)
  {
    var offc, offh := feed.offs(y.concern, route, nc), feed.offs(y.concern, route, nh);
    PlannedNext(p, add, sc, offc);
    PlannedNext(p, add, sh, offh);
    var next := (add + p[1..])[0];
    if y.command.Delete? {
      assert next == add[0];
      assert Newest(c.db, y.concern, offc) && Newest(h.db, y.concern, offh);
    } else if next.system.Process? {
      assert next == if add == [] then p[1] else add[0];
      PlannedFront(ac, ah, next, sc, offc, sh, offh);
    } else {
      assert add == [] && next == p[1] && MayFollow(p[0], p[1]);
      assert Newest(c.db, y.concern, offc) && Newest(h.db, y.concern, offh);
    }
    if next.system.Storage? {
      StepAheadNext(next, sc, y.concern, route, feed, nc);
      StepAheadNext(next, sh, y.concern, route, feed, nh);
    }
  }

  predicate SameKind(a: MStep, b: MStep) { a.system == b.system && a.concern == b.concern && a.command == b.command }

  // ---------- one visit in each run ----------

  /** The current steps as their handlers see them. */
  predicate ArrivedIn(txn: MTxn, x: MStep, off: CompoundOffset)
    requires InRange(txn)
  {
    x == Stamp(Current(txn), Current(txn).key, off)
  }

  /** What a visit that succeeds in both runs has to look like for the runs to stay in step. */
  ghost predicate Paired(tc: MTxn, th: MTxn, x: MStep, y: MStep, ac: Answer<World>, ah: Answer<World>, sc: MStep,
                         sh: MStep, fc: Fate<Bytes>, fh: Fate<Bytes>, offc: CompoundOffset, offh: CompoundOffset)
  {
    && InFlight(tc) && InFlight(th) && ArrivedIn(tc, x, offc) && ArrivedIn(th, y, offh)
    && AnsweredOk(ac) && AnsweredOk(ah) && SameOutcome(ac.outcome, ah.outcome)
    && SuccessOf(tc, fc, sc, ac.outcome.addSteps, offc) && SuccessOf(th, fh, sh, ah.outcome.addSteps, offh)
    && (exists inst :: sc == Settle(x, ac.outcome.result.value, inst))
    && (exists inst :: sh == Settle(y, ah.outcome.result.value, inst))
    && SameTransaction(tc, fc.txn) && SameTransaction(th, fh.txn)
  }

  /** Both messages are sent by the same key. */
  lemma SameRoute(tc: MTxn, th: MTxn, feed: Feed)
    requires InFlight(tc) && InFlight(th) && SamePending(Pending(tc), Pending(th))
             && Matches(Finished(tc), Finished(th))
    ensures RouteAt(feed, tc) == RouteAt(feed, th) && forall n: nat :: OffAt(feed, tc, n) == OffAt(feed, th, n)
  {
    MatchesCreates(Finished(tc), Finished(th));
    CurrentInFlight(tc);
    CurrentInFlight(th);
  }

  lemma PairedDone(tc: MTxn, th: MTxn, x: MStep, y: MStep, ac: Answer<World>, ah: Answer<World>, sc: MStep, sh: MStep,
                   fc: Fate<Bytes>, fh: Fate<Bytes>, offc: CompoundOffset, offh: CompoundOffset)
    requires Paired(tc, th, x, y, ac, ah, sc, sh, fc, fh, offc, offh)
    requires SamePending(Pending(tc), Pending(th)) && Current(tc).payload == Current(th).payload
    ensures SameDone(sc, sh) && sc.result.value.key == sh.result.value.key == ah.outcome.result.value.key
    ensures sc.cmpdOffset == x.cmpdOffset && sh.cmpdOffset == y.cmpdOffset
    ensures SameKind(sh, y) && SameKind(Current(th), y)
  {
    CurrentInFlight(tc);
    CurrentInFlight(th);
  }

  lemma SyncProcess(bare: Bares, c: World, tc: MTxn, nc: nat, h: World, th: MTxn, nh: nat, feed: Feed, x: MStep,
                    y: MStep, ac: Answer<World>, ah: Answer<World>, sc: MStep, sh: MStep, fc: Fate<Bytes>,
                    fh: Fate<Bytes>)
    requires Sync(bare, c, tc, nc, h, th, nh, feed) && Current(th).system.Process? && !IsValidateUpdate(Current(th))
    requires Paired(tc, th, x, y, ac, ah, sc, sh, fc, fh, OffAt(feed, th, nc), OffAt(feed, th, nh))
    requires AgreeAt(bare, c, h, y.concern, y.key, OffAt(feed, th, nc), OffAt(feed, th, nh), ac, ah)
             && CommandPlan(y, h, ah)
    requires y.key in StoreOf(h, y.concern) || IsInstanceStoreStep(y) || IsValidateCreate(y)
    requires y.command.Delete? ==> y.key in StoreOf(c, y.concern)
                                   && StoreOf(ac.state, y.concern) == StoreOf(c, y.concern)
    requires IsValidateCreate(y) ==> ah.state == h
    ensures fc.Forwarded? <==> fh.Forwarded?
    ensures fc.Forwarded? ==> Sync(bare, ac.state, fc.txn, nc + 1, ah.state, fh.txn, nh + 1, feed)
    ensures fc.Completed? ==> SameEnd(bare, Ending(fc, ac.state, 1), Ending(fh, ah.state, 1))
  {
    var offc, offh, add := OffAt(feed, th, nc), OffAt(feed, th, nh), ah.outcome.addSteps;
    var route := RouteAt(feed, th);
    CurrentInFlight(tc);
    CurrentInFlight(th);
    PairedDone(tc, th, x, y, ac, ah, sc, sh, fc, fh, offc, offh);
    BothSucceed(tc, fc, sc, offc, th, fh, sh, offh, add);
    if fc.Forwarded? {
      KeyGivenNext(tc, fc, sc, add, offc);
      KeyGivenNext(th, fh, sh, add, offh);
      CurrentInFlight(fc.txn);
      CurrentInFlight(fh.txn);
      ProcessWorlds(bare, c, nc, h, nh, feed, y, route, ac, ah, Creates(Finished(th)));
      ProcessPlan(bare, c, h, nc, nh, feed, tc, th, y, route, ac, ah, sc, sh);
      ProcessSafe(bare, c, h, ac, ah, y, feed, th, fh, sh, offc, offh);
      CreatesLast(Finished(th), sh);
    }
  }

  lemma ProcessShrinks(c: World, h: World, ac: World, ah: World, concern: string, key: string, offc: CompoundOffset,
                       offh: CompoundOffset)
    requires OnlyAt(StoreOf(c, concern), StoreOf(ac, concern), key, offc)
             && OnlyAt(StoreOf(h, concern), StoreOf(ah, concern), key, offh)
    requires SameAt(StoreOf(ac, concern), StoreOf(ah, concern), key)
    requires forall n :: n != concern ==> StoreOf(ac, n) == StoreOf(c, n) && StoreOf(ah, n) == StoreOf(h, n)
    ensures Shrinks(c, h, ac, ah)
  {
  }

  lemma ProcessSafe(bare: Bares, c: World, h: World, ac: Answer<World>, ah: Answer<World>, y: MStep, feed: Feed,
                    th: MTxn, fh: Fate<Bytes>, sh: MStep, offc: CompoundOffset, offh: CompoundOffset)
    requires SuccessOf(th, fh, sh, ah.outcome.addSteps, offh) && fh.Forwarded? && CreatesSafe(c, h, feed, Pending(th))
    requires AgreeAt(bare, c, h, y.concern, y.key, offc, offh, ac, ah) && CommandPlan(y, h, ah)
    ensures CreatesSafe(ac.state, ah.state, feed, Pending(fh.txn))
  {
    ProcessShrinks(c, h, ac.state, ah.state, y.concern, y.key, offc, offh);
    SafeNext(c, h, ac.state, ah.state, feed, Pending(th), ah.outcome.addSteps, sh, offh);
  }

  lemma StorageSafe(c: World, h: World, ac: World, ah: World, feed: Feed, th: MTxn, fh: Fate<Bytes>, sh: MStep,
                    add: seq<MStep>, offh: CompoundOffset)
    requires SuccessOf(th, fh, sh, add, offh) && fh.Forwarded? && CreatesSafe(c, h, feed, Pending(th))
    requires ac.chars == c.chars && ac.players == c.players && ah.chars == h.chars && ah.players == h.players
    requires ProcessOnly(add)
    ensures CreatesSafe(ac, ah, feed, Pending(fh.txn))
  {
    StoresKept(c, h, ac, ah);
    SafeNext(c, h, ac, ah, feed, Pending(th), add, sh, offh);
  }

  lemma CreatesLast(done: seq<MStep>, step: MStep)
    ensures Creates(done + [step]) == Creates(done) + if step.system.Storage? && step.command.Create? then 1 else 0
  {
    assert (done + [step])[..|done|] == done;
  }

  lemma ProcessWorlds(bare: Bares, c: World, nc: nat, h: World, nh: nat, feed: Feed, y: MStep, route: string,
                      ac: Answer<World>, ah: Answer<World>, created: nat)
    requires Increasing(feed) && Ahead(c, feed, nc) && Ahead(h, feed, nh) && Unused(h, feed, created)
             && Alike(bare, c, h)
    requires y.system.Process? && FrontOk(c, h, y, y) && (y.key != "" ==> route == y.key)
    requires AgreeAt(bare, c, h, y.concern, y.key, feed.offs(y.concern, route, nc), feed.offs(y.concern, route, nh),
                     ac, ah)
             && CommandPlan(y, h, ah)
    requires y.key in StoreOf(h, y.concern) || IsInstanceStoreStep(y) || IsValidateCreate(y)
    requires IsValidateCreate(y) ==> ah.state == h
    ensures Ahead(ac.state, feed, nc + 1) && Ahead(ah.state, feed, nh + 1) && Unused(ah.state, feed, created)
  {
    AlikeStores(bare, ac.state, ah.state, y.concern);
    AheadAfter(c, ac.state, y.concern, y.key, route, feed, nc);
    AheadAfter(h, ah.state, y.concern, y.key, route, feed, nh);
    UnusedAfter(h, ah.state, y.concern, y.key, feed.offs(y.concern, route, nh), feed, created);
  }

  lemma ProcessPlan(bare: Bares, c: World, h: World, nc: nat, nh: nat, feed: Feed, tc: MTxn, th: MTxn, y: MStep,
                    route: string, ac: Answer<World>, ah: Answer<World>, sc: MStep, sh: MStep)
    requires Increasing(feed) && InFlight(tc) && InFlight(th) && SamePending(Pending(tc), Pending(th))
             && PlannedAfter(Pending(th)) && FrontOk(c, h, y, y)
    requires y.system.Process? && !IsValidateUpdate(y) && SameKind(Current(th), y) && DoneOk(sc) && DoneOk(sh)
    requires Current(th).payload == y.payload
    requires Alike(bare, c, h) && Ahead(c, feed, nc) && Ahead(h, feed, nh)
    requires AgreeAt(bare, c, h, y.concern, y.key, feed.offs(y.concern, route, nc), feed.offs(y.concern, route, nh),
                     ac, ah)
             && CommandPlan(y, h, ah)
    requires sc.cmpdOffset == Some(feed.offs(y.concern, route, nc))
             && sh.cmpdOffset == Some(feed.offs(y.concern, route, nh))
    requires y.command.Delete? ==> y.key in StoreOf(c, y.concern) && y.key in StoreOf(h, y.concern)
                                   && StoreOf(ac.state, y.concern) == StoreOf(c, y.concern)
    requires sh.result.value.key == "" && ah.outcome.addSteps + Pending(th)[1..] != []
    ensures var add, rest := ah.outcome.addSteps, Pending(th)[1..];
            var qc := InheritFirst(add + Pending(tc)[1..], sc, feed.offs(y.concern, route, nc));
            var qh := InheritFirst(add + rest, sh, feed.offs(y.concern, route, nh));
            && PlannedAfter(qh) && FrontOk(ac.state, ah.state, qc[0], qh[0]) && StepAhead(qc[0], feed, nc + 1)
            && StepAhead(qh[0], feed, nh + 1)
  {
    CurrentInFlight(th);
    AlikeStores(bare, c, h, y.concern);
    AlikeStores(bare, ac.state, ah.state, y.concern);
    ProcessFront(c, h, ac.state, ah.state, y, route, Pending(th), ah.outcome.addSteps, sc, sh, feed, nc, nh);
  }

  // storage

  lemma CreateWorld(w: World, concern: string, f: string, i: Instance, o: CompoundOffset, feed: Feed, n: nat)
    requires Ahead(w, feed, n) && OffAhead(concern, o, feed, n)
    ensures Ahead(w.(db := Write(w.db, concern, f, i, None, o)), feed, n + 1)
  {
    var after := w.(db := Write(w.db, concern, f, i, None, o));
    WriteIs(w.db, concern, f, i, o);
    forall n2 ensures StoreOf(after, n2) == StoreOf(w, n2) {}
    forall n2, k, m: nat | m >= n + 1 ensures Newest(after.db, n2, feed.offs(n2, k, m)) {
      assert Newest(w.db, n2, feed.offs(n2, k, m)) && (n2 == concern ==> Newer(feed.offs(n2, k, m), o));
    }
  }

  lemma UnusedKey(h: World, feed: Feed, created: nat, m: nat, n: string)
    requires Unused(h, feed, created) && m >= created
    ensures feed.keys(m) !in StoreOf(h, n) && Lookup(h.db, n, feed.keys(m)).None?
  {
    assert feed.keys(m) !in StoreOf(h, n);
  }

  lemma CreateUnused(h: World, concern: string, i: Instance, o: CompoundOffset, feed: Feed, created: nat)
    requires Increasing(feed) && Unused(h, feed, created)
    ensures Unused(h.(db := Write(h.db, concern, feed.keys(created), i, None, o)), feed, created + 1)
  {
    var f := feed.keys(created);
    var ah := h.(db := Write(h.db, concern, f, i, None, o));
    forall m: nat, n | m >= created + 1 ensures feed.keys(m) !in StoreOf(ah, n)
        && Lookup(ah.db, n, feed.keys(m)).None? {
      UnusedKey(h, feed, created, m, n);
      WriteIs(h.db, concern, f, i, o);
    }
  }

  lemma StoresKept(c: World, h: World, ac: World, ah: World)
    requires ac.chars == c.chars && ac.players == c.players && ah.chars == h.chars && ah.players == h.players
    ensures Shrinks(c, h, ac, ah)
  {
  }

  /** The answer to a create under a new key. */
  ghost predicate CreateAnswer(w: World, y: MStep, f: string, i: Instance, a: Answer<World>) {
    && y.cmpdOffset.Some? && a.state == w.(db := Write(w.db, y.concern, f, i, None, y.cmpdOffset.value))
    && |a.outcome.addSteps| >= 1
    && var r := a.outcome.addSteps[0];
       && r.system.Process? && r.command.RefreshInstance? && r.concern == y.concern && r.key == f
       && ProcessOnly(a.outcome.addSteps)
       && forall j :: 0 < j < |a.outcome.addSteps| ==> a.outcome.addSteps[j].system.Process?
                                                       && a.outcome.addSteps[j].command.RequestRelated?
  }

  lemma CreateAnswers(w: World, y: MStep, off: CompoundOffset, f: string)
    requires y.system.Storage? && y.command.Create? && GivenKey(y) == "" && f != ""
             && AnsweredOk(HandleCommand(w, y, None, off, f))
    ensures y.payload.Some? && PayloadInst(y.payload.value).Some? && IsConcern(y.concern)
            && InstKey(WithKey(PayloadInst(y.payload.value).value, f)) == f
    ensures CreateAnswer(w, y, f, WithKey(PayloadInst(y.payload.value).value, f), HandleCommand(w, y, None, off, f))
  {
  }

  lemma CreateFront(c: World, h: World, ac: World, ah: World, y: MStep, p: seq<MStep>, add: seq<MStep>, f: string,
                    i: Instance, sc: MStep, offc: CompoundOffset, sh: MStep, offh: CompoundOffset, feed: Feed, nc: nat,
                    nh: nat)
    requires p != [] && PlannedAfter(p) && SameKind(p[0], y) && y.system.Storage? && DoneOk(sc) && DoneOk(sh)
    requires CreateAnswer(h, y, f, i, Answer(Outcome(sh.result, add), ah)) && f != ""
             && Lookup(ac.db, y.concern, f).Some?
    requires f !in StoreOf(ac, y.concern) && f !in StoreOf(ah, y.concern)
    ensures var qc, qh := InheritFirst(add + p[1..], sc, offc), InheritFirst(add + p[1..], sh, offh);
            && qc != [] && qh != [] && PlannedAfter(qh) && FrontOk(ac, ah, qc[0], qh[0]) && StepAhead(qc[0], feed, nc)
            && StepAhead(qh[0], feed, nh)
            && qc[0].key == qh[0].key == f && qh[0].system.Process? && qh[0].command.RefreshInstance?
            && qh[0].concern == y.concern
  {
    PlannedNext(p, add, sc, offc);
    PlannedNext(p, add, sh, offh);
  }

  lemma SyncCreate(bare: Bares, c: World, tc: MTxn, nc: nat, h: World, th: MTxn, nh: nat, feed: Feed, x: MStep,
                   y: MStep, i: Instance, ac: Answer<World>, ah: Answer<World>, sc: MStep, sh: MStep, fc: Fate<Bytes>,
                   fh: Fate<Bytes>)
    requires Sync(bare, c, tc, nc, h, th, nh, feed) && y.system.Storage? && y.command.Create?
    requires Paired(tc, th, x, y, ac, ah, sc, sh, fc, fh, OffAt(feed, th, nc), OffAt(feed, th, nh))
    requires CreateAnswer(c, x, KeyAt(feed, th), i, ac) && CreateAnswer(h, y, KeyAt(feed, th), i, ah)
             && IsConcern(y.concern) && InstKey(i) == KeyAt(feed, th)
    ensures fc.Forwarded? && fh.Forwarded? && Sync(bare, ac.state, fc.txn, nc + 1, ah.state, fh.txn, nh + 1, feed)
  {
    CreateTxns(bare, c, tc, nc, h, th, nh, feed, x, y, i, ac, ah, sc, sh, fc, fh);
    CreateWorlds(bare, c, nc, h, nh, feed, x, y, i, Creates(Finished(th)), Current(fc.txn), Current(fh.txn));
    CreateSafely(c, h, feed, th, y, ac, ah, sh, fh, OffAt(feed, th, nh));
  }

  lemma CreateSafely(c: World, h: World, feed: Feed, th: MTxn, y: MStep, ac: Answer<World>, ah: Answer<World>,
                     sh: MStep, fh: Fate<Bytes>, offh: CompoundOffset)
    requires SuccessOf(th, fh, sh, ah.outcome.addSteps, offh) && fh.Forwarded? && CreatesSafe(c, h, feed, Pending(th))
    requires ac.state == c.(db := ac.state.db) && ah.state == h.(db := ah.state.db) && ProcessOnly(ah.outcome.addSteps)
    requires sh.system.Storage? && sh.command.Create?
    ensures CreatesSafe(ac.state, ah.state, feed, Pending(fh.txn))
            && Creates(Finished(fh.txn)) == Creates(Finished(th)) + 1
  {
    StorageSafe(c, h, ac.state, ah.state, feed, th, fh, sh, ah.outcome.addSteps, offh);
    CreatesLast(Finished(th), sh);
  }

  lemma CreateTxns(bare: Bares, c: World, tc: MTxn, nc: nat, h: World, th: MTxn, nh: nat, feed: Feed, x: MStep,
                   y: MStep, i: Instance, ac: Answer<World>, ah: Answer<World>, sc: MStep, sh: MStep, fc: Fate<Bytes>,
                   fh: Fate<Bytes>)
    requires Sync(bare, c, tc, nc, h, th, nh, feed) && y.system.Storage? && y.command.Create?
    requires Paired(tc, th, x, y, ac, ah, sc, sh, fc, fh, OffAt(feed, th, nc), OffAt(feed, th, nh))
    requires CreateAnswer(c, x, KeyAt(feed, th), i, ac) && CreateAnswer(h, y, KeyAt(feed, th), i, ah)
    ensures fc.Forwarded? && fh.Forwarded? && SyncTxns(ac.state, fc.txn, ah.state, fh.txn)
    ensures Current(fc.txn).system.Process? && SameKind(sh, y) && SameKind(x, y)
    ensures SuccessOf(th, fh, sh, ah.outcome.addSteps, OffAt(feed, th, nh))
    ensures var q := Current(fh.txn);
            q.system.Process? && q.command.RefreshInstance? && q.concern == y.concern && q.key == KeyAt(feed, th)
  {
    var offc, offh, f := OffAt(feed, th, nc), OffAt(feed, th, nh), KeyAt(feed, th);
    var n := Creates(Finished(th));
    CurrentInFlight(tc);
    CurrentInFlight(th);
    PairedDone(tc, th, x, y, ac, ah, sc, sh, fc, fh, offc, offh);
    BothSucceed(tc, fc, sc, offc, th, fh, sh, offh, ah.outcome.addSteps);
    CurrentInFlight(fc.txn);
    CurrentInFlight(fh.txn);
    UnusedKey(h, feed, n, n, y.concern);
    AlikeStores(bare, c, h, y.concern);
    assert Lookup(c.db, y.concern, f).None? && f !in StoreOf(c, y.concern);
    WriteIs(c.db, y.concern, f, i, x.cmpdOffset.value);
    CreateFront(c, h, ac.state, ah.state, y, Pending(th), ah.outcome.addSteps, f, i, sc, offc, sh, offh, feed, nc + 1,
                nh + 1);
    KeyGivenNext(tc, fc, sc, ah.outcome.addSteps, offc);
    KeyGivenNext(th, fh, sh, ah.outcome.addSteps, offh);
  }

  lemma CreateWorlds(bare: Bares, c: World, nc: nat, h: World, nh: nat, feed: Feed, x: MStep, y: MStep, i: Instance,
                     n: nat, prev: MStep, next: MStep)
    requires Increasing(feed) && SyncWorlds(bare, c, nc, h, nh, feed, x, y, n) && SameKind(x, y) && y.system.Storage?
             && x.cmpdOffset.Some? && y.cmpdOffset.Some? && SameLine(x.cmpdOffset.value, y.cmpdOffset.value)
    requires Newest(c.db, y.concern, x.cmpdOffset.value) && Newest(h.db, y.concern, y.cmpdOffset.value)
    requires next.system.Process? && prev.system.Process? && IsConcern(y.concern) && InstKey(i) == feed.keys(n)
    ensures var ac := c.(db := Write(c.db, y.concern, feed.keys(n), i, None, x.cmpdOffset.value));
            var ah := h.(db := Write(h.db, y.concern, feed.keys(n), i, None, y.cmpdOffset.value));
            SyncWorlds(bare, ac, nc + 1, ah, nh + 1, feed, prev, next, n + 1)
  {
    var f := feed.keys(n);
    UnusedKey(h, feed, n, n, y.concern);
    WriteAlike(bare, c, h, y.concern, f, i, x.cmpdOffset.value, y.cmpdOffset.value);
    CreateWorld(c, y.concern, f, i, x.cmpdOffset.value, feed, nc);
    CreateWorld(h, y.concern, f, i, y.cmpdOffset.value, feed, nh);
    CreateUnused(h, y.concern, i, y.cmpdOffset.value, feed, n);
    WriteKeyed(c.db, y.concern, i, None, x.cmpdOffset.value);
    WriteKeyed(h.db, y.concern, i, None, y.cmpdOffset.value);
  }

  lemma DeleteWorlds(c: World, nc: nat, h: World, nh: nat, feed: Feed, y: MStep, oc: CompoundOffset, oh: CompoundOffset,
                     n: nat)
    requires Ahead(c, feed, nc) && Ahead(h, feed, nh) && Unused(h, feed, n)
    ensures var ac, ah := c.(db := Erase(c.db, y.concern, y.key, oc)), h.(db := Erase(h.db, y.concern, y.key, oh));
            Ahead(ac, feed, nc + 1) && Ahead(ah, feed, nh + 1) && Unused(ah, feed, n)
  {
    EraseAhead(c, y.concern, y.key, oc, feed, nc);
    EraseAhead(h, y.concern, y.key, oh, feed, nh);
    EraseUnused(h, y.concern, y.key, oh, feed, n);
  }

  lemma EraseAhead(w: World, concern: string, key: string, o: CompoundOffset, feed: Feed, n: nat)
    requires Ahead(w, feed, n)
    ensures Ahead(w.(db := Erase(w.db, concern, key, o)), feed, n + 1)
  {
    var after := w.(db := Erase(w.db, concern, key, o));
    EraseIs(w.db, concern, key, o);
    forall n2 ensures StoreOf(after, n2) == StoreOf(w, n2) {}
    forall n2, k, m: nat | m >= n + 1 ensures Newest(after.db, n2, feed.offs(n2, k, m)) {
      assert Newest(w.db, n2, feed.offs(n2, k, m));
    }
  }

  lemma EraseUnused(h: World, concern: string, key: string, o: CompoundOffset, feed: Feed, n: nat)
    requires Unused(h, feed, n)
    ensures Unused(h.(db := Erase(h.db, concern, key, o)), feed, n)
  {
    var ah := h.(db := Erase(h.db, concern, key, o));
    EraseIs(h.db, concern, key, o);
    forall m: nat, k | m >= n ensures feed.keys(m) !in StoreOf(ah, k) && Lookup(ah.db, k, feed.keys(m)).None? {
      UnusedKey(h, feed, n, m, k);
    }
  }

  /** The answer to a delete. */
  ghost predicate DeleteAnswer(w: World, y: MStep, a: Answer<World>) {
    && y.cmpdOffset.Some? && a.state == w.(db := Erase(w.db, y.concern, y.key, y.cmpdOffset.value))
    && |a.outcome.addSteps| == 1
    && var r := a.outcome.addSteps[0];
       r.system.Process? && r.command.FlushInstance? && r.concern == y.concern && r.key == y.key
           && ProcessOnly(a.outcome.addSteps)
  }

  lemma DeleteAnswers(w: World, y: MStep, off: CompoundOffset, f: string)
    requires y.system.Storage? && y.command.Delete? && AnsweredOk(HandleCommand(w, y, None, off, f))
    ensures DeleteAnswer(w, y, HandleCommand(w, y, None, off, f)) && IsConcern(y.concern)
  {
  }

  lemma DeleteFront(ac: World, ah: World, y: MStep, p: seq<MStep>, add: seq<MStep>, sc: MStep, offc: CompoundOffset,
                    sh: MStep, offh: CompoundOffset, feed: Feed, nc: nat, nh: nat)
    requires p != [] && PlannedAfter(p) && SameKind(p[0], y) && y.system.Storage? && DoneOk(sc) && DoneOk(sh)
             && y.key != ""
    requires |add| == 1 && add[0].system.Process? && add[0].command.FlushInstance? && add[0].concern == y.concern
             && add[0].key == y.key
    requires SameAt(StoreOf(ac, y.concern), StoreOf(ah, y.concern), y.key)
    ensures var qc, qh := InheritFirst(add + p[1..], sc, offc), InheritFirst(add + p[1..], sh, offh);
            && qc != [] && qh != [] && PlannedAfter(qh) && FrontOk(ac, ah, qc[0], qh[0]) && StepAhead(qc[0], feed, nc)
            && StepAhead(qh[0], feed, nh)
            && qc[0].key == qh[0].key == y.key
  {
    PlannedNext(p, add, sc, offc);
    PlannedNext(p, add, sh, offh);
  }

  lemma SyncDelete(bare: Bares, c: World, tc: MTxn, nc: nat, h: World, th: MTxn, nh: nat, feed: Feed, x: MStep,
                   y: MStep, ac: Answer<World>, ah: Answer<World>, sc: MStep, sh: MStep, fc: Fate<Bytes>,
                   fh: Fate<Bytes>)
    requires Sync(bare, c, tc, nc, h, th, nh, feed) && y.system.Storage? && y.command.Delete? && IsConcern(y.concern)
    requires Paired(tc, th, x, y, ac, ah, sc, sh, fc, fh, OffAt(feed, th, nc), OffAt(feed, th, nh))
    requires DbKeyed(ac.state.db) && DbKeyed(ah.state.db) && DeleteAnswer(c, x, ac) && DeleteAnswer(h, y, ah)
    ensures fc.Forwarded? && fh.Forwarded? && Sync(bare, ac.state, fc.txn, nc + 1, ah.state, fh.txn, nh + 1, feed)
  {
    var offc, offh := OffAt(feed, th, nc), OffAt(feed, th, nh);
    CurrentInFlight(tc);
    CurrentInFlight(th);
    PairedDone(tc, th, x, y, ac, ah, sc, sh, fc, fh, offc, offh);
    BothSucceed(tc, fc, sc, offc, th, fh, sh, offh, ah.outcome.addSteps);
    CurrentInFlight(fc.txn);
    CurrentInFlight(fh.txn);
    EraseAlike(bare, c, h, y.concern, y.key, x.cmpdOffset.value, y.cmpdOffset.value);
    DeleteWorlds(c, nc, h, nh, feed, y, x.cmpdOffset.value, y.cmpdOffset.value, Creates(Finished(th)));
    StorageSafe(c, h, ac.state, ah.state, feed, th, fh, sh, ah.outcome.addSteps, offh);
    DeleteFront(ac.state, ah.state, y, Pending(th), ah.outcome.addSteps, sc, offc, sh, offh, feed, nc + 1, nh + 1);
    KeyGivenNext(tc, fc, sc, ah.outcome.addSteps, offc);
    KeyGivenNext(th, fh, sh, ah.outcome.addSteps, offh);
    CreatesLast(Finished(th), sh);
  }
}
