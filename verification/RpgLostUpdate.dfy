/**
 Currency is lost on a cold cache. Two transactions fund the same stored character while it
 is not cached; each makes a detour over storage, and the second refresh arrives after the
 first funding. Both complete, and the first amount is gone: `OverlappingDetoursLose`.
 */
module RpgLostUpdate {
  import opened Wrappers
  import opened Offsets
  import opened ApecsTxns
  import opened ApecsRunners
  import opened ApecsInvariants
  import opened InstanceStores
  import opened RamDbs
  import opened Rpg
  import opened RpgWorlds
  import opened RpgCold
  import RpgColdWarm
  import opened RpgConservation

  // ---------- the visits of a funding that misses its character ----------

  function FundStep(key: string, fr: FundingRequest): MStep {
    UserStep(CHARACTER, Platform("Fund"), key, Some(Funding(fr)))
  }

  /** A funding with nothing done yet. */
  predicate Funder(t: MTxn, key: string, fr: FundingRequest) {
    && Validate(t) && t.currentStepIdx == 0 && t.forwardSteps == [FundStep(key, fr)]
    && key != "" && fr.currency.Some? && !Negative(fr.currency.value)
  }

  /** The funding as its consumer sees it. */
  predicate IsFunding(step: MStep, key: string, fr: FundingRequest) {
    && step.system.Process? && step.concern == CHARACTER && step.command == Platform("Fund") && step.key == key
    && step.payload == Some(Funding(fr))
    && key != "" && fr.currency.Some? && !Negative(fr.currency.value)
  }

  predicate AtRead(t: MTxn, key: string, fr: FundingRequest) {
    && InFlight(t) && |Pending(t)| == 2 && IsFunding(Pending(t)[1], key, fr)
    && var read := Current(t);
       read.system.Storage? && read.command.Read? && read.concern == CHARACTER && read.key == key
           && read.cmpdOffset.Some?
  }

  predicate AtRefresh(t: MTxn, key: string, fr: FundingRequest, i: Instance) {
    && InFlight(t) && |Pending(t)| == 2 && IsFunding(Pending(t)[1], key, fr)
    && Current(t) == ProcessStep(CHARACTER, RefreshInstance, key, Some(Packed(i, None)))
  }

  predicate AtFunding(t: MTxn, key: string, fr: FundingRequest) {
    InFlight(t) && |Pending(t)| == 1 && IsFunding(Current(t), key, fr)
  }

  lemma MissVisit(w: World, t: MTxn, off: CompoundOffset, freshKey: string, key: string, fr: FundingRequest)
    requires AtFunding(t, key, fr) && key !in w.chars
    ensures var r := Serve(w, t, off, freshKey); r.world == w && r.fate.Forwarded? && AtRead(r.fate.txn, key, fr)
  {
    RpgColdWarm.KeyedAdmission(w, t, off);
    ServeMissed(w, t, off, freshKey);
    var t1 := Serve(w, t, off, freshKey).fate.txn;
    CurrentInFlight(t);
    CurrentInFlight(t1);
    assert Pending(t1) == [StorageRead(Arrived(t, off), off)] + [Arrived(t, off)] + [];
  }

  lemma ReadVisit(w: World, t: MTxn, off: CompoundOffset, freshKey: string, key: string, fr: FundingRequest,
                  rec: Rec<Instance, Related>)
    requires AtRead(t, key, fr) && StoredAs(w.db, CHARACTER, key, rec) && rec.rel.None?
    ensures var r := Serve(w, t, off, freshKey);
            r.world == w && r.fate.Forwarded? && AtRefresh(r.fate.txn, key, fr, rec.inst)
  {
    RpgColdWarm.KeyedAdmission(w, t, off);
    RpgColdWarm.AnsweredIs(w, t, off, freshKey);
    RpgColdWarm.ReadAnswer(w, Arrived(t, off), off, freshKey, rec);
    ServeAdmitted(w, t, off, freshKey);
    CurrentInFlight(t);
    AfterRead(t, Serve(w, t, off, freshKey).fate, SettledStep(w, t, off, freshKey), key, fr, rec.inst, off);
  }

  lemma AfterRead(t: MTxn, f: Fate<Bytes>, settled: MStep, key: string, fr: FundingRequest, i: Instance,
                  off: CompoundOffset)
    requires AtRead(t, key, fr)
             && SuccessOf(t, f, settled, [ProcessStep(CHARACTER, RefreshInstance, key, Some(Packed(i, None)))], off)
    ensures f.Forwarded? && AtRefresh(f.txn, key, fr, i)
  {
    var rest := [ProcessStep(CHARACTER, RefreshInstance, key, Some(Packed(i, None)))] + Pending(t)[1..];
    assert rest[1] == Pending(t)[1] && |rest| == 2;
    CurrentInFlight(f.txn);
    assert InheritFirst(rest, settled, off)[1] == rest[1];
  }

  lemma RefreshVisit(w: World, t: MTxn, off: CompoundOffset, freshKey: string, key: string, fr: FundingRequest,
                     i: Instance)
    requires AtRefresh(t, key, fr, i) && IsA(i, CHARACTER) && InstKey(i) == key && key != ""
             && InOrder(w.chars, key, off) && GetRelated(w.chars, key).None?
    ensures var r := Serve(w, t, off, freshKey);
            && r.world == w.(chars := w.chars[key := Rec(i, None, off)]) && r.fate.Forwarded?
            && AtFunding(r.fate.txn, key, fr)
  {
    RpgColdWarm.KeyedAdmission(w, t, off);
    RpgColdWarm.AnsweredIs(w, t, off, freshKey);
    RpgColdWarm.GivenRefresh(w, Arrived(t, off), i, off, freshKey);
    ServeAdmitted(w, t, off, freshKey);
    CurrentInFlight(t);
    AfterRefresh(t, Serve(w, t, off, freshKey).fate, SettledStep(w, t, off, freshKey), key, fr, i, off);
  }

  lemma AfterRefresh(t: MTxn, f: Fate<Bytes>, settled: MStep, key: string, fr: FundingRequest, i: Instance,
                     off: CompoundOffset)
    requires AtRefresh(t, key, fr, i) && SuccessOf(t, f, settled, [], off)
    ensures f.Forwarded? && AtFunding(f.txn, key, fr)
  {
    var rest := Pending(t)[1..];
    assert [] + rest == rest && rest[0] == Pending(t)[1];
    CurrentInFlight(f.txn);
  }

  lemma FundVisit(w: World, t: MTxn, off: CompoundOffset, freshKey: string, key: string, fr: FundingRequest)
    requires AtFunding(t, key, fr) && key in w.chars && w.chars[key].inst.CharacterInst? && w.chars[key].rel.None?
             && InOrder(w.chars, key, off)
    ensures var r := Serve(w, t, off, freshKey);
            && r.world.db == w.db && r.fate.Completed? && InRange(r.fate.txn) && AllOk(r.fate.txn.forwardSteps)
            && key in r.world.chars
            && r.world.chars[key].inst == CharacterInst(Fund(w.chars[key].inst.c, fr).value)
            && r.world.chars[key].rel.None?
            && (r.world.chars[key].cmpdOffset == off || r.world.chars == w.chars)
  {
    RpgColdWarm.KeyedAdmission(w, t, off);
    RpgColdWarm.AnsweredIs(w, t, off, freshKey);
    FundAnswer(w, Arrived(t, off), off, freshKey, fr);
    ServeAdmitted(w, t, off, freshKey);
    CurrentInFlight(t);
    assert [] + Pending(t)[1..] == [];
  }

  lemma FundAnswer(w: World, step: MStep, off: CompoundOffset, freshKey: string, fr: FundingRequest)
    requires IsFunding(step, step.key, fr) && step.key in w.chars && w.chars[step.key].inst.CharacterInst?
             && w.chars[step.key].rel.None?
    requires InOrder(w.chars, step.key, off)
    ensures var a := HandleCommand(w, step, Some(Inst(w.chars[step.key].inst)), off, freshKey);
            && AnsweredOk(a) && a.outcome.addSteps == [] && a.state.db == w.db && step.key in a.state.chars
            && a.state.chars[step.key].inst == CharacterInst(Fund(w.chars[step.key].inst.c, fr).value)
            && a.state.chars[step.key].rel.None?
            && (a.state.chars[step.key].cmpdOffset == off || a.state.chars == w.chars)
  {
    assert |"Fund"| == 4;
  }

  // ---------- histories, one event at a time ----------

  datatype Trace = Trace(states: seq<Bank>, events: seq<Event>)

  /** What stays the same along a history: where it starts, and what is watched. */
  datatype Watch = Watch(start: Bank, hash: string -> int, plans: set<seq<Entry>>, keys: seq<string>, v: View)

  /** The history leads to `s`, and its refreshes have brought in `drift`. */
  ghost predicate Reaches(x: Trace, c: Watch, s: Bank, drift: int) {
    && IsHistory(x.states, x.events, c.hash, c.plans, true) && x.states[0] == c.start && x.states[|x.events|] == s
    && Drifts(x.states, x.events, c.v, |x.events|) == drift
    && Inv(s, c.hash, true) && Enumerates(c.keys, s.w) && Booked(s, c.plans)
  }

  lemma {:induction false} DriftsPrefix(x: Trace, y: Trace, v: View, n: nat)
    requires n <= |x.events| && n <= |x.states| && x.states <= y.states && x.events <= y.events
    ensures Drifts(x.states, x.events, v, n) == Drifts(y.states, y.events, v, n)
  {
    if n > 0 { DriftsPrefix(x, y, v, n - 1); }
  }

  lemma Extend(x: Trace, c: Watch, s: Bank, drift: int, e: Event) returns (y: Trace)
    requires Reaches(x, c, s, drift) && Enabled(s, e, c.hash, true)
             && (e.Submit? ==> Entries(e.txn.forwardSteps) in c.plans)
    ensures Reaches(y, c, Next(s, e, c.hash, true), drift + Drift(s, e, c.v))
  {
    var t := Next(s, e, c.hash, true);
    y := Trace(x.states + [t], x.events + [e]);
    NextKeeps(s, e, c.hash, c.keys, c.v, c.plans, true);
    DriftsPrefix(x, y, c.v, |x.events|);
    Longer(x, y, c, s, e);
  }

  lemma Longer(x: Trace, y: Trace, c: Watch, s: Bank, e: Event)
    requires IsHistory(x.states, x.events, c.hash, c.plans, true) && x.states[|x.events|] == s
    requires Enabled(s, e, c.hash, true) && (e.Submit? ==> Entries(e.txn.forwardSteps) in c.plans)
    requires y.states == x.states + [Next(s, e, c.hash, true)] && y.events == x.events + [e]
    ensures IsHistory(y.states, y.events, c.hash, c.plans, true)
  {
    forall i | 0 <= i < |y.events|
      ensures Enabled(y.states[i], y.events[i], c.hash, true)
              && y.states[i + 1] == Next(y.states[i], y.events[i], c.hash, true)
              && (y.events[i].Submit? ==> Entries(y.events[i].txn.forwardSteps) in c.plans)
    {
      if i < |x.events| { assert y.states[i] == x.states[i] && y.events[i] == x.events[i]; }
    }
  }

  function OffFor(s: Bank, p: int): CompoundOffset { CompoundOffset(0, p, Position(s, p)) }

  /** Delivers the message at `i`. */
  lemma Visit(x: Trace, c: Watch, s: Bank, drift: int, i: nat) returns (y: Trace, r: Served)
    requires Reaches(x, c, s, drift) && i < |s.stream|
    ensures InRange(s.stream[i])
    ensures var off := OffFor(s, c.hash(Current(s.stream[i]).key));
            && r == Serve(s.w, s.stream[i], off, "k")
            && Reaches(y, c, Delivered(s, i, off, r), drift + DriftIn(s.w, Current(s.stream[i]), c.v))
  {
    var off := OffFor(s, c.hash(Current(s.stream[i]).key));
    y := Extend(x, c, s, drift, Deliver(i, off, "k"));
    r := Serve(s.w, s.stream[i], off, "k");
  }

  lemma FrontInOrder(c: Watch, s: Bank, key: string)
    requires Written(s, c.hash)
    ensures InOrder(s.w.chars, key, OffFor(s, c.hash(key)))
  {
  }

  lemma NoDriftHere(w: World, step: MStep, v: View)
    requires !step.command.RefreshInstance?
    ensures DriftIn(w, step, v) == 0
  {
  }

  // ---------- overlapping detours ----------

  /** Both messages miss. */
  lemma OneMisses(x: Trace, c: Watch, s: Bank, drift: int, key: string, fr: FundingRequest,
                  rest: seq<MTxn>) returns (y: Trace, s': Bank, t: MTxn)
    requires Reaches(x, c, s, drift) && s.stream != [] && rest == s.stream[1..] && AtFunding(s.stream[0], key, fr)
             && key !in s.w.chars
    ensures Reaches(y, c, s', drift) && s'.w == s.w && s'.ended == s.ended && s'.stream == rest + [t]
            && AtRead(t, key, fr)
  {
    var r;
    y, r := Visit(x, c, s, drift, 0);
    var off := OffFor(s, c.hash(Current(s.stream[0]).key));
    MissVisit(s.w, s.stream[0], off, "k", key, fr);
    NoDriftHere(s.w, Current(s.stream[0]), c.v);
    s', t := Delivered(s, 0, off, r), r.fate.txn;
    assert Without(s.stream, 0) == rest;
  }

  lemma OneReads(x: Trace, c: Watch, s: Bank, drift: int, key: string, fr: FundingRequest, rec: Rec<Instance, Related>,
                 rest: seq<MTxn>)
      returns (y: Trace, s': Bank, t: MTxn)
    requires Reaches(x, c, s, drift) && s.stream != [] && rest == s.stream[1..] && AtRead(s.stream[0], key, fr)
    requires StoredAs(s.w.db, CHARACTER, key, rec) && rec.rel.None?
    ensures Reaches(y, c, s', drift) && s'.w == s.w && s'.ended == s.ended && s'.stream == rest + [t]
            && AtRefresh(t, key, fr, rec.inst)
  {
    var r;
    y, r := Visit(x, c, s, drift, 0);
    var off := OffFor(s, c.hash(Current(s.stream[0]).key));
    ReadVisit(s.w, s.stream[0], off, "k", key, fr, rec);
    NoDriftHere(s.w, Current(s.stream[0]), c.v);
    s', t := Delivered(s, 0, off, r), r.fate.txn;
    assert Without(s.stream, 0) == rest;
  }

  lemma RefreshDrift(w: World, t: MTxn, key: string, fr: FundingRequest, i: Instance, v: View)
    requires AtRefresh(t, key, fr, i) && i.CharacterInst?
    ensures Current(t).key == key
            && DriftIn(w, Current(t), v) == When(key in v.who, Balance(i, v.kind) - CharBalance(w, key, v.kind))
  {
  }

  lemma OneRefreshes(x: Trace, c: Watch, s: Bank, drift: int, key: string, fr: FundingRequest, i: Instance,
                     rest: seq<MTxn>)
      returns (y: Trace, s': Bank, t: MTxn)
    requires Reaches(x, c, s, drift) && s.stream != [] && rest == s.stream[1..] && AtRefresh(s.stream[0], key, fr, i)
    requires i.CharacterInst? && InstKey(i) == key && key != "" && GetRelated(s.w.chars, key).None?
    ensures s'.w.db == s.w.db && s'.ended == s.ended && s'.stream == rest + [t] && AtFunding(t, key, fr)
    ensures key in s'.w.chars && s'.w.chars[key].inst == i && s'.w.chars[key].rel.None?
    ensures Reaches(y, c, s', drift + When(key in c.v.who, Balance(i, c.v.kind) - CharBalance(s.w, key, c.v.kind)))
  {
    var r;
    y, r := Visit(x, c, s, drift, 0);
    var off := OffFor(s, c.hash(key));
    FrontInOrder(c, s, key);
    RefreshDrift(s.w, s.stream[0], key, fr, i, c.v);
    RefreshVisit(s.w, s.stream[0], off, "k", key, fr, i);
    s', t := Delivered(s, 0, off, r), r.fate.txn;
    assert Without(s.stream, 0) == rest;
  }

  /** The last message of the stream funds its character. */
  lemma LastFunds(x: Trace, c: Watch, s: Bank, drift: int, key: string, fr: FundingRequest, rest: seq<MTxn>,
                  t: MTxn) returns (y: Trace, s': Bank)
    requires Reaches(x, c, s, drift) && s.stream == rest + [t] && AtFunding(t, key, fr)
    requires key in s.w.chars && s.w.chars[key].inst.CharacterInst? && s.w.chars[key].rel.None?
    ensures Reaches(y, c, s', drift) && s'.stream == rest && s'.w.db == s.w.db && key in s'.w.chars
            && s'.w.chars[key].rel.None?
    ensures s'.w.chars[key].inst == CharacterInst(Fund(s.w.chars[key].inst.c, fr).value)
    ensures exists done :: s'.ended == s.ended + [done] && AllOk(done.forwardSteps)
  {
    var r;
    y, r := Visit(x, c, s, drift, |rest|);
    var off := OffFor(s, c.hash(key));
    FrontInOrder(c, s, key);
    FundVisit(s.w, t, off, "k", key, fr);
    NoDriftHere(s.w, Current(t), c.v);
    s' := Delivered(s, |rest|, off, r);
    assert Without(s.stream, |rest|) == rest;
    assert s'.ended == s.ended + [r.fate.txn];
  }

  /** A stored character that is not cached, updated since its creation and related to nobody. */
  ghost predicate Cold(w: World, key: string, i: Instance) {
    key !in w.chars && i.CharacterInst? && exists rec :: StoredAs(w.db, CHARACTER, key, rec) && rec.inst == i
                                                         && rec.rel.None?
  }

  lemma BothSubmitted(c: Watch, key: string, a: MTxn, fra: FundingRequest, b: MTxn,
                      frb: FundingRequest) returns (x: Trace, s: Bank)
    requires Inv(c.start, c.hash, true) && Enumerates(c.keys, c.start.w) && Booked(c.start, c.plans)
             && c.start.stream == []
    requires Funder(a, key, fra) && Funder(b, key, frb) && Entries(a.forwardSteps) in c.plans
             && Entries(b.forwardSteps) in c.plans
    ensures Reaches(x, c, s, 0) && s == c.start.(stream := [a, b]) && AtFunding(a, key, fra) && AtFunding(b, key, frb)
  {
    x := Extend(Trace([c.start], []), c, c.start, 0, Submit(a));
    var s1 := Next(c.start, Submit(a), c.hash, true);
    x := Extend(x, c, s1, 0, Submit(b));
    s := Next(s1, Submit(b), c.hash, true);
    assert s.stream == [a, b];
    assert Pending(a) == a.forwardSteps && Pending(b) == b.forwardSteps;
  }

  /** What the theorem starts from. */
  ghost predicate Overlap(c: Watch, key: string, i: Instance, a: MTxn, fra: FundingRequest, b: MTxn,
                          frb: FundingRequest) {
    && Inv(c.start, c.hash, true) && Enumerates(c.keys, c.start.w) && Booked(c.start, c.plans) && c.start.stream == []
    && Funder(a, key, fra) && Funder(b, key, frb) && Entries(a.forwardSteps) in c.plans
    && Entries(b.forwardSteps) in c.plans
    && Cold(c.start.w, key, i) && key in c.v.who
  }

  /** Both have read the stored item before either refreshes the cache. */
  lemma BothRead(c: Watch, key: string, i: Instance, a: MTxn, fra: FundingRequest, b: MTxn, frb: FundingRequest)
      returns (x: Trace, s: Bank, t1: MTxn, t2: MTxn)
    requires Overlap(c, key, i, a, fra, b, frb)
    ensures Reaches(x, c, s, 0) && s.w == c.start.w && s.ended == c.start.ended && s.stream == [t1] + [t2]
    ensures AtRefresh(t1, key, fra, i) && AtRefresh(t2, key, frb, i)
  {
    var rec :| StoredAs(c.start.w.db, CHARACTER, key, rec) && rec.inst == i && rec.rel.None?;
    x, s := BothSubmitted(c, key, a, fra, b, frb);
    x, s, t1 := OneMisses(x, c, s, 0, key, fra, [b]);
    x, s, t2 := OneMisses(x, c, s, 0, key, frb, [t1]);
    x, s, t1 := OneReads(x, c, s, 0, key, fra, rec, [t2]);
    x, s, t2 := OneReads(x, c, s, 0, key, frb, rec, [t1]);
  }

  /** A refresh and the funding behind it. */
  lemma RefreshAndFund(x: Trace, c: Watch, s: Bank, drift: int, key: string, fr: FundingRequest, i: Instance,
                       rest: seq<MTxn>)
      returns (y: Trace, s': Bank, done: MTxn)
    requires Reaches(x, c, s, drift) && s.stream != [] && rest == s.stream[1..] && AtRefresh(s.stream[0], key, fr, i)
    requires i.CharacterInst? && InstKey(i) == key && key != "" && GetRelated(s.w.chars, key).None?
    ensures Reaches(y, c, s', drift + When(key in c.v.who, Balance(i, c.v.kind) - CharBalance(s.w, key, c.v.kind)))
    ensures s'.stream == rest && s'.ended == s.ended + [done] && AllOk(done.forwardSteps)
    ensures GetRelated(s'.w.chars, key).None?
            && CharBalance(s'.w, key, c.v.kind) == Balance(CharacterInst(Fund(i.c, fr).value), c.v.kind)
  {
    var t;
    var d := drift + When(key in c.v.who, Balance(i, c.v.kind) - CharBalance(s.w, key, c.v.kind));
    y, s', t := OneRefreshes(x, c, s, drift, key, fr, i, rest);
    y, s' := LastFunds(y, c, s', d, key, fr, rest, t);
    done :| s'.ended == s.ended + [done] && AllOk(done.forwardSteps);
  }

  /** Two fundings of a stored character that is not cached, with overlapping detours: both
      complete, and what is in view has lost the first amount. */
  lemma OverlappingDetoursLose(c: Watch, key: string, i: Instance, a: MTxn, fra: FundingRequest, b: MTxn,
                               frb: FundingRequest)
      returns (x: Trace, end: Bank, ta: MTxn, tb: MTxn)
    requires Overlap(c, key, i, a, fra, b, frb)
    ensures IsHistory(x.states, x.events, c.hash, c.plans, true) && x.states[0] == c.start
            && x.states[|x.events|] == end
    ensures end.stream == [] && end.ended == c.start.ended + [ta] + [tb] && AllOk(ta.forwardSteps)
            && AllOk(tb.forwardSteps)
    ensures Cong(Funds(c.keys, end, c.v), Funds(c.keys, c.start, c.v) - Amount(fra.currency.value, c.v.kind))
  {
    var s, t1, t2;
    x, s, t1, t2 := BothRead(c, key, i, a, fra, b, frb);
    ColdBalance(c.start.w, key, i, c.v.kind);
    x, s, ta := RefreshAndFund(x, c, s, 0, key, fra, i, [t2]);
    var lost := Balance(i, c.v.kind) - CharBalance(s.w, key, c.v.kind);
    x, end, tb := RefreshAndFund(x, c, s, 0, key, frb, i, []);
    LostAmount(i.c, fra, c.v.kind);
    FundsChanged(x, c, end, lost, Amount(fra.currency.value, c.v.kind));
  }

  lemma ColdBalance(w: World, key: string, i: Instance, kind: Kind)
    requires Cold(w, key, i)
    ensures CharBalance(w, key, kind) == Balance(i, kind) && InstKey(i) == key && GetRelated(w.chars, key).None?
  {
  }

  lemma LostAmount(was: Character, fr: FundingRequest, kind: Kind)
    requires fr.currency.Some? && !Negative(fr.currency.value)
    ensures Cong(Balance(CharacterInst(was), kind) - Balance(CharacterInst(Fund(was, fr).value), kind),
                 -Amount(fr.currency.value, kind))
  {
    var now, amount := Balance(CharacterInst(Fund(was, fr).value), kind), Amount(fr.currency.value, kind);
    assert |"Fund"| == 4 && |"DebitFunds"| == 10;
    CommandMoves("Fund", was, fr, kind);
    CongSym(now - amount, Balance(CharacterInst(was), kind));
    CongSum(Balance(CharacterInst(was), kind), now - amount, Balance(CharacterInst(was), kind) - now, -amount);
  }

  lemma FundsChanged(x: Trace, c: Watch, end: Bank, drift: int, amount: int)
    requires Reaches(x, c, end, drift) && Cong(drift, -amount)
    requires Inv(c.start, c.hash, true) && Enumerates(c.keys, c.start.w) && Booked(c.start, c.plans)
    ensures Cong(Funds(c.keys, end, c.v), Funds(c.keys, c.start, c.v) - amount)
  {
    Accounting(x.states, x.events, c.hash, c.plans, c.keys, c.v, |x.events|, true);
    var first := Funds(c.keys, c.start, c.v);
    CongSum(drift, -amount, first + drift, first - amount);
    CongTrans(Funds(c.keys, end, c.v), first + drift, first - amount);
  }

  // ---------- one such history ----------

  function Ann(): Instance { CharacterInst(Character("ann", "", "Ann Lee", true, Some(NO_FUNDS))) }

  /** Ann is stored and nothing is cached. */
  function AnnStored(): World {
    World(map[], map[], map[CHARACTER := map["ann" := Item(Ann(), Some(CharacterRel(None)), CompoundOffset(0, 0, 0))]])
  }

  function FiveGold(): FundingRequest { FundingRequest("ann", Some(Currency(5, 0, 0, 0))) }

  function FundAnn(id: string): MTxn { Txn(id, [], None, 0, Report, [FundStep("ann", FiveGold())]) }

  function AnnsGold(): Watch {
    Watch(Bank(AnnStored(), [], [], map[]), k => 0, {Entries(FundAnn("a").forwardSteps)}, ["ann"], View(Gold, {"ann"}))
  }

  lemma AnnLookup(n: string, k: string)
    ensures Lookup(AnnStored().db, n, k) ==
              if n == CHARACTER && k == "ann" then Some(Item(Ann(), Some(CharacterRel(None)), CompoundOffset(0, 0, 0)))
              else None
  {
  }

  lemma AnnOverlaps()
    ensures Overlap(AnnsGold(), "ann", Ann(), FundAnn("a"), FiveGold(), FundAnn("b"), FiveGold())
  {
    forall k ensures Lookup(AnnStored().db, CHARACTER, k) ==
                     if k == "ann" then Some(Item(Ann(), Some(CharacterRel(None)), CompoundOffset(0, 0, 0))) else None {
      AnnLookup(CHARACTER, k);
    }
    assert StoredAs(AnnStored().db, CHARACTER, "ann", Rec(Ann(), None, CompoundOffset(0, 0, 0)));
  }

  /** Ann is funded five gold twice, and both complete: the sum that should be conserved has
      changed. */
  lemma LostFunding() returns (x: Trace, end: Bank)
    ensures var c := AnnsGold();
            && IsHistory(x.states, x.events, c.hash, c.plans, true) && x.states[0] == c.start
            && x.states[|x.events|] == end
            && end.stream == [] && |end.ended| == 2 && AllOk(end.ended[0].forwardSteps)
            && AllOk(end.ended[1].forwardSteps)
            && !Cong(Funds(c.keys, end, c.v), Funds(c.keys, c.start, c.v))
  {
    AnnOverlaps();
    var c, ta, tb := AnnsGold(), FundAnn("a"), FundAnn("b");
    x, end, ta, tb := OverlappingDetoursLose(c, "ann", Ann(), ta, FiveGold(), tb, FiveGold());
    NotFive(Funds(c.keys, end, c.v), Funds(c.keys, c.start, c.v));
  }

  lemma NotFive(now: int, first: int)
    requires Cong(now, first - 5)
    ensures !Cong(now, first)
  {
    CongMod(now, first - 5);
    CongMod(now, first);
  }
}
