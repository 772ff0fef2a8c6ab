/**
 A transaction that runs alone reaches the complete or error topic, and a weight over its
 pending steps bounds the number of its messages. Every keyed PROCESS step is charged for
 one cache miss (the detour over storage and the refresh it leads to) and every command for
 the steps its handler can add.
 */
module RpgTermination {
  import opened Wrappers
  import opened Offsets
  import opened ApecsTxns
  import opened ApecsRunners
  import opened ApecsInvariants
  import ApecsProvenance
  import opened RamDbs
  import opened Rpg
  import opened RpgWorlds

  /** The messages of a missed step before it runs: to storage, back, and once more. */
  const MISS := 3

  /** The messages a keyed PROCESS command whose instance is cached can lead to. */
  function Base(command: Command): nat {
    match command
    case Update => 3
    case Delete => 3
    case RequestRelated => 5
    case Platform(_) => 9
    case _ => 1
  }

  function Cost(step: MStep): nat {
    if NeedsInstance(step) then Base(step.command) + MISS
    else if step.system.Storage? && step.command.Create? then 10
    else if step.system.Storage? && (step.command.Read? || step.command.Update? || step.command.Delete?) then 2
    else 1
  }

  function Costs(steps: seq<MStep>): nat {
    if steps == [] then 0 else Cost(steps[0]) + Costs(steps[1..])
  }

  /** `next` waits for the instance that `step`, a storage read or a refresh, brings. */
  predicate BringsFor(step: MStep, next: MStep) {
    && ((step.system.Storage? && step.command.Read?) || (step.system.Process? && step.command.RefreshInstance?))
    && NeedsInstance(next) && next.key != "" && next.key == step.key && next.concern == step.concern
  }

  /** The next miss that could be charged cannot happen. */
  predicate Covered(w: World, txn: MTxn)
    requires InRange(txn)
  {
    var step := Current(txn);
    if NeedsInstance(step) then ResolveKey(txn).Some? && ResolveKey(txn).value in StoreOf(w, step.concern)
    else |Pending(txn)| > 1 && BringsFor(step, Pending(txn)[1])
  }

  function Weight(w: World, txn: MTxn): (r: nat)
    requires InRange(txn)
    ensures r > 0
  {
    var p := Pending(txn);
    assert p[0] == Current(txn);
    assert Costs(p) == Cost(p[0]) + Costs(p[1..]);
    assert |p| > 1 ==> Costs(p[1..]) == Cost(p[1]) + Costs(p[1..][1..]);
    Costs(p) - if Covered(w, txn) then MISS else 0
  }

  /** Items are stored under their own keys, as every storage command does it. */
  ghost predicate DbKeyed(db: MDb) {
    forall concern, key :: concern in db && key in db[concern] ==> InstKey(db[concern][key].inst) == key
  }

  lemma {:induction false} CostsAppend(a: seq<MStep>, b: seq<MStep>)
    ensures Costs(a + b) == Costs(a) + Costs(b)
    decreases |a|
  {
    if a == [] {
      assert a + b == b;
    } else {
      assert (a + b)[1..] == a[1..] + b;
      CostsAppend(a[1..], b);
    }
  }

  lemma CostsFew(a: MStep, b: MStep)
    ensures Costs([a]) == Cost(a) && Costs([a, b]) == Cost(a) + Cost(b)
  {
    assert [a, b][1..] == [b] && [b][1..] == [] && [a][1..] == [];
  }

  // ---------- what handlers add ----------

  lemma LogicAddCost(step: MStep, a: LogicArgs, store: MStore)
    requires step.system.Process?
    requires !NeedsInstance(step) ==> a.inst.None?
    ensures Costs(HandleLogic(step.concern, step.command, a,
                              store).outcome.addSteps) < if NeedsInstance(step) then Base(step.command) else 1
  {
    var add := HandleLogic(step.concern, step.command, a, store).outcome.addSteps;
    if |add| == 1 {
      CostsFew(add[0], add[0]);
      assert add == [add[0]];
    } else if |add| == 2 {
      CostsFew(add[0], add[1]);
      assert add == [add[0], add[1]];
    }
  }

  lemma CrudAddCost(step: MStep, a: CrudArgs, db: MDb)
    requires IsStorageSystem(step.system)
    ensures Costs(HandleCrud(step.concern, step.system, step.command, a, db).outcome.addSteps) < Cost(step)
  {
    var add := HandleCrud(step.concern, step.system, step.command, a, db).outcome.addSteps;
    if |add| == 1 {
      CostsFew(add[0], add[0]);
      assert add == [add[0]];
    } else if |add| == 2 {
      CostsFew(add[0], add[1]);
      assert add == [add[0], add[1]];
    }
  }

  lemma CrudKeepsKeyed(concern: string, system: System, command: Command, a: CrudArgs, db: MDb)
    requires DbKeyed(db)
    ensures DbKeyed(HandleCrud(concern, system, command, a, db).state)
  {
    if a.payload.Some? && PayloadInst(a.payload.value).Some? {
      var given, rel := PayloadInst(a.payload.value).value, ParsedRel(a.payload.value);
      var i := if InstKey(given) == "" then WithKey(given, a.freshKey) else given;
      WriteKeyed(db, concern, i, None, a.off);
      WriteKeyed(db, concern, given, Some(if rel.Some? then rel.value else EmptyRel(concern)), a.off);
      EraseKeyed(Write(db, concern, InstKey(i), i, None, a.off), concern, "", a.off);
    }
    EraseKeyed(db, concern, a.key, a.off);
  }

  lemma WriteKeyed(db: MDb, concern: string, i: Instance, rel: Option<Related>, off: CompoundOffset)
    requires DbKeyed(db)
    ensures DbKeyed(Write(db, concern, InstKey(i), i, rel, off))
  {
  }

  lemma EraseKeyed(db: MDb, concern: string, key: string, off: CompoundOffset)
    requires DbKeyed(db)
    ensures DbKeyed(Erase(db, concern, key, off))
  {
  }

  lemma ServeKeepsKeyed(w: World, txn: MTxn, off: CompoundOffset, freshKey: string)
    requires InRange(txn) && DbKeyed(w.db)
    ensures DbKeyed(Serve(w, txn, off, freshKey).world.db)
  {
    var s := Arrived(txn, off);
    if s.cmpdOffset.Some? {
      CrudKeepsKeyed(s.concern, s.system, s.command, CrudArgs(s.key, s.payload, s.cmpdOffset.value, freshKey), w.db);
    }
  }

  // ---------- every forwarded message weighs less ----------

  lemma MissedDrops(w: World, txn: MTxn, off: CompoundOffset, freshKey: string)
    requires InFlight(txn) && AdmitAt(w, txn, off).Missed?
    ensures var r := Serve(w, txn, off, freshKey);
            r.fate.Forwarded? && InFlight(r.fate.txn) && Weight(r.world, r.fate.txn) < Weight(w, txn)
  {
    ServeMissed(w, txn, off, freshKey);
    CurrentInFlight(txn);
    var step, rest, t := Arrived(txn, off), Pending(txn)[1..], Serve(w, txn, off, freshKey).fate.txn;
    var read := StorageRead(step, off);
    assert Cost(step) == Cost(Current(txn)) && Cost(read) == 2;
    CurrentInFlight(t);
    if step.command.Read? {
      CostsAppend([read], rest);
      CostsFew(read, read);
      assert Pending(t) == [read] + rest;
    } else {
      CostsAppend([read, step], rest);
      CostsFew(read, step);
      assert Pending(t) == [read, step] + rest;
      assert BringsFor(Current(t), Pending(t)[1]);
    }
  }

  lemma InheritKeepsCost(steps: seq<MStep>, done: MStep, off: CompoundOffset)
    requires done.result.Some?
    ensures Costs(InheritFirst(steps, done, off)) == Costs(steps)
  {
  }

  lemma AnswerCost(w: World, txn: MTxn, off: CompoundOffset, freshKey: string)
    requires InFlight(txn) && AdmitAt(w, txn, off).Admitted?
    ensures Costs(Answered(w, txn, off, freshKey).outcome.addSteps) <
              if NeedsInstance(Current(txn)) then Base(Current(txn).command) else Cost(Current(txn))
  {
    var s, inst := Arrived(txn, off), AdmitAt(w, txn, off).inst;
    if s.system.Process? {
      var i := if inst.Some? && inst.value.Inst? then Some(inst.value.inst) else None;
      LogicAddCost(s, LogicArgs(s.key, i, s.payload, off), StoreOf(w, s.concern));
    } else if IsStorageSystem(s.system) && s.cmpdOffset.Some? {
      CrudAddCost(s, CrudArgs(s.key, s.payload, s.cmpdOffset.value, freshKey), w.db);
    }
  }

  /** A covered read or refresh leaves its successor covered. */
  lemma CoverPassedOn(w: World, txn: MTxn, off: CompoundOffset, freshKey: string)
    requires InFlight(txn) && DbKeyed(w.db) && AdmitAt(w, txn, off).Admitted?
             && AnsweredOk(Answered(w, txn, off, freshKey))
    requires |Pending(txn)| > 1 && BringsFor(Current(txn), Pending(txn)[1])
    requires Serve(w, txn, off, freshKey).fate.Forwarded? && InRange(Serve(w, txn, off, freshKey).fate.txn)
    ensures Covered(Serve(w, txn, off, freshKey).world, Serve(w, txn, off, freshKey).fate.txn)
  {
    ServeAdmitted(w, txn, off, freshKey);
    ArrivedShape(txn, off);
    var r, add, step := Serve(w, txn, off, freshKey), Answered(w, txn, off, freshKey).outcome.addSteps,
        Arrived(txn, off);
    BringsInstance(w, step, AdmitAt(w, txn, off).inst, off, freshKey);
    CoverInherited(r.world, txn, r.fate, SettledStep(w, txn, off, freshKey), add, off);
  }

  lemma BringsInstance(w: World, step: MStep, inst: Option<Bytes>, off: CompoundOffset, freshKey: string)
    requires DbKeyed(w.db) && AnsweredOk(HandleCommand(w, step, inst, off, freshKey))
    requires (step.system.Storage? && step.command.Read?)
             || (step.system.Process? && step.command.RefreshInstance? && inst.None?)
    ensures var a := HandleCommand(w, step, inst, off, freshKey); var add := a.outcome.addSteps;
            if step.system.Storage? then
              |add| == 1 && add[0].key == step.key && add[0].system.Process? && add[0].command.RefreshInstance?
                  && add[0].concern == step.concern
            else add == [] && step.key in StoreOf(a.state, step.concern)
  {
  }

  lemma CoverInherited(w: World, txn: MTxn, fate: Fate<Bytes>, settled: MStep, add: seq<MStep>, off: CompoundOffset)
    requires SuccessOf(txn, fate, settled, add, off) && fate.Forwarded?
    requires |Pending(txn)| > 1 && BringsFor(Current(txn), Pending(txn)[1])
    requires var step := Current(txn);
             if step.system.Storage? then |add| == 1 && BringsFor(add[0], Pending(txn)[1])
             else add == [] && step.key in StoreOf(w, step.concern)
    ensures Covered(w, fate.txn)
  {
    var next, rest := Pending(txn)[1], add + Pending(txn)[1..];
    CurrentInFlight(fate.txn);
    if add != [] {
      assert rest[1] == next;
      assert Pending(fate.txn)[1] == next;
    } else {
      assert rest[0] == next;
    }
  }

  lemma AdmittedDrops(w: World, txn: MTxn, off: CompoundOffset, freshKey: string)
    requires InFlight(txn) && DbKeyed(w.db) && AdmitAt(w, txn, off).Admitted?
             && AnsweredOk(Answered(w, txn, off, freshKey))
    requires Serve(w, txn, off, freshKey).fate.Forwarded?
    ensures var r := Serve(w, txn, off, freshKey);
            InFlight(r.fate.txn) && Weight(r.world, r.fate.txn) < Weight(w, txn)
  {
    ServeAdmitted(w, txn, off, freshKey);
    CurrentInFlight(txn);
    var r, a, settled := Serve(w, txn, off, freshKey), Answered(w, txn, off, freshKey),
        SettledStep(w, txn, off, freshKey);
    var rest := Pending(txn)[1..];
    AnswerCost(w, txn, off, freshKey);
    CostsAppend(a.outcome.addSteps, rest);
    InheritKeepsCost(a.outcome.addSteps + rest, settled, off);
    if |Pending(txn)| > 1 && BringsFor(Current(txn), Pending(txn)[1]) {
      CoverPassedOn(w, txn, off, freshKey);
    }
  }

  lemma WeightDrops(w: World, txn: MTxn, off: CompoundOffset, freshKey: string)
    requires InFlight(txn) && DbKeyed(w.db) && Serve(w, txn, off, freshKey).fate.Forwarded?
    ensures var r := Serve(w, txn, off, freshKey);
            DbKeyed(r.world.db) && InFlight(r.fate.txn) && Weight(r.world, r.fate.txn) < Weight(w, txn)
  {
    ServeKeepsKeyed(w, txn, off, freshKey);
    if AdmitAt(w, txn, off).Missed? {
      MissedDrops(w, txn, off, freshKey);
    } else if AdmitAt(w, txn, off).Admitted? && AnsweredOk(Answered(w, txn, off, freshKey)) {
      AdmittedDrops(w, txn, off, freshKey);
    } else {
      ServeStops(w, txn, off, freshKey);
    }
  }

  // ---------- runs ----------

  /** The offset at which the n-th message of a transaction arrives on the topics of a
      concern when it is sent by a key, the key the n-th of its creates would be given, and
      the random key by which the steps of that create, which need none, are sent. */
  datatype Feed = Feed(offs: (string, string, nat) -> CompoundOffset, keys: nat -> string, routes: nat -> string)

  function Creates(steps: seq<MStep>): nat {
    if steps == [] then 0
    else var n := |steps| - 1;
    Creates(steps[..n]) + if steps[n].system.Storage? && steps[n].command.Create? then 1 else 0
  }

  /** The key whose partition the message is sent to. */
  function RouteAt(feed: Feed, txn: MTxn): string
    requires InRange(txn)
  {
    if IsKeylessStep(Current(txn)) then feed.routes(Creates(Finished(txn))) else Current(txn).key
  }

  function OffAt(feed: Feed, txn: MTxn, n: nat): CompoundOffset
    requires InRange(txn)
  {
    feed.offs(Current(txn).concern, RouteAt(feed, txn), n)
  }

  function KeyAt(feed: Feed, txn: MTxn): string
    requires InRange(txn)
  {
    feed.keys(Creates(Finished(txn)))
  }

  /** How a transaction that runs alone ends, and after how many messages. */
  datatype Ending = Ending(fate: Fate<Bytes>, world: World, messages: nat)

  /** The n-th and later messages of a transaction no other message interferes with. */
  ghost function RunAlone(w: World, txn: MTxn, feed: Feed, n: nat): (e: Ending)
    requires InFlight(txn) && DbKeyed(w.db)
    ensures !e.fate.Forwarded?
    ensures 0 < e.messages <= Weight(w, txn)
    decreases Weight(w, txn)
  {
    var r := Serve(w, txn, OffAt(feed, txn, n), KeyAt(feed, txn));
    if r.fate.Forwarded? then
      WeightDrops(w, txn, OffAt(feed, txn, n), KeyAt(feed, txn));
      var e := RunAlone(r.world, r.fate.txn, feed, n + 1);
      e.(messages := e.messages + 1)
    else Ending(r.fate, r.world, 1)
  }

  // ---------- bounds for submitted transactions ----------

  /** An upper bound that needs only the submitted steps. */
  function Submission(steps: seq<MStep>): nat {
    if steps == [] then 0
    else Submission(steps[1..]) +
         if steps[0].command.Create? then 11 else if steps[0].command.Update? then 10 else Base(steps[0].command) + MISS
  }

  lemma {:induction false} SubmissionCosts(steps: seq<MStep>)
    requires forall i :: 0 <= i < |steps| ==> steps[i].system.Process?
    ensures Costs(ExpandAll(steps)) <= Submission(steps)
  {
    if steps != [] {
      var e := Expand(steps[0]);
      CostsAppend(e, ExpandAll(steps[1..]));
      SubmissionCosts(steps[1..]);
      if |e| == 2 {
        CostsFew(e[0], e[1]);
        assert e == [e[0], e[1]];
      } else {
        CostsFew(e[0], e[0]);
        assert e == [e[0]];
      }
    }
  }

  /** Whatever a client submits, from whatever state of caches and database, ends after a
      number of messages known from the submitted steps. */
  lemma EveryTransactionEnds(w: World, id: string, target: Option<TopicTarget>, uponError: UponError, steps: seq<MStep>,
                             feed: Feed)
    requires id != "" && steps != [] && DbKeyed(w.db) && ApecsProvenance.Submitted(steps)
    ensures var txn := NewApecsTxn(id, None, target, uponError, steps);
            txn.Some? ==> InFlight(txn.value) && !RunAlone(w, txn.value, feed, 0).fate.Forwarded?
                          && RunAlone(w, txn.value, feed, 0).messages <= Submission(steps)
  {
    NewTxnInFlight(id, None, target, uponError, steps);
    SubmissionCosts(steps);
    var txn := NewApecsTxn(id, None, target, uponError, steps);
    if txn.Some? {
      assert Pending(txn.value) == ExpandAll(steps);
    }
  }

  /** A trade takes at most 48 messages, a create at most 11. */
  lemma ExampleBounds(lhs: FundingRequest, rhs: FundingRequest, concern: string, i: Instance)
    ensures Submission(TradeSteps(lhs, rhs)) == 48 && Submission(FundSteps(lhs)) == 12
            && Submission(CreateSteps(concern, i)) == 11
  {
    var t := TradeSteps(lhs, rhs);
    assert Submission([t[3]]) == 12;
    assert t[3..] == [t[3]] && t[2..][1..] == t[3..] && t[1..][1..] == t[2..];
    assert Submission(t[2..]) == 24;
    assert Submission(t[1..]) == 36;
  }
}
