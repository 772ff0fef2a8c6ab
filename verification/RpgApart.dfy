/**
 When currency is safe on any cache. If a transaction is only submitted while no message in
 the stream names one of its characters, the detours of a character never overlap, every
 refresh brings the balance in view, and the sum of balances and amounts on their way is
 conserved whatever the caches hold: `ApartConserves`.
 */
module RpgApart {
  import opened Wrappers
  import opened Offsets
  import opened ApecsRunners
  import opened ApecsInvariants
  import InstanceStores
  import opened RamDbs
  import opened Rpg
  import opened RpgWorlds
  import opened RpgConservation

  /** The characters a list of steps names. */
  function Names(steps: seq<MStep>): set<string> { set step | step in steps && step.concern == CHARACTER :: step.key }

  predicate IsCharRead(step: MStep) { step.concern == CHARACTER && step.system.Storage? && step.command.Read? }

  predicate IsCharRefresh(step: MStep) { ToCharacters(step) && step.command.RefreshInstance? }

  /** A storage read of a character is ahead of its record, and a refresh brings what is stored. */
  ghost predicate FrontTrue(w: World, step: MStep) {
    && (IsCharRead(step) ==> step.key !in w.chars)
    && (IsCharRefresh(step) ==> step.key !in w.chars && (Refreshes(step) ==> Brings(w, step)))
  }

  ghost predicate Brings(w: World, step: MStep)
    requires Refreshes(step)
  {
    forall kind :: Balance(PayloadInst(step.payload.value).value, kind) == CharBalance(w, step.key, kind)
  }

  predicate NoDetours(steps: seq<MStep>) { forall step :: step in steps ==> !IsCharRead(step) && !IsCharRefresh(step) }

  ghost predicate TrueTxn(w: World, t: MTxn) {
    InFlight(t) && FrontTrue(w, Current(t)) && NoDetours(Pending(t)[1..])
  }

  /** No two messages name the same character. */
  ghost predicate Apart(s: Bank) {
    && (forall i :: 0 <= i < |s.stream| ==> TrueTxn(s.w, s.stream[i]))
    && forall i, j :: 0 <= i < j < |s.stream| ==> Names(Pending(s.stream[i])) !! Names(Pending(s.stream[j]))
  }

  /** Whoever submits looks at the stream first. */
  ghost predicate Careful(s: Bank, e: Event) {
    e.Submit? ==> forall i :: 0 <= i < |s.stream| && InRange(s.stream[i]) ==>
                                Names(Pending(s.stream[i])) !! Names(e.txn.forwardSteps)
  }

  // ---------- what a handler adds ----------

  /** Only steps on the step's own character, and a refresh only behind a storage read. */
  ghost predicate AddsApart(w: World, step: MStep, add: seq<MStep>) {
    && (forall a :: a in add && a.concern == CHARACTER ==> step.concern == CHARACTER && a.key == step.key)
    && (if IsCharRead(step) then |add| == 1 && IsCharRefresh(add[0]) && (Refreshes(add[0]) ==> FromStored(w, add[0]))
        else NoDetours(add))
  }

  ghost predicate FromStored(w: World, step: MStep)
    requires Refreshes(step)
  {
    && Lookup(w.db, CHARACTER, step.key).Some?
    && PayloadInst(step.payload.value).value == Lookup(w.db, CHARACTER, step.key).value.inst
  }

  lemma HandlerAddsApart(w: World, step: MStep, inst: Option<Bytes>, off: CompoundOffset, freshKey: string)
    requires Quiet(w, step, true) && CharsKeyed(w.db) && AnsweredOk(HandleCommand(w, step, inst, off, freshKey))
    requires !NeedsInstance(step) ==> inst.None?
    ensures AddsApart(w, step, HandleCommand(w, step, inst, off, freshKey).outcome.addSteps)
  {
    if step.concern == CHARACTER && step.system.Process? && step.command.Platform? {
      PlatformAddsApart(w, step, inst, off, freshKey);
    }
  }

  lemma PlatformAddsApart(w: World, step: MStep, inst: Option<Bytes>, off: CompoundOffset, freshKey: string)
    requires ToCharacters(step) && step.command.Platform? && AnsweredOk(HandleCommand(w, step, inst, off, freshKey))
    ensures AddsApart(w, step, HandleCommand(w, step, inst, off, freshKey).outcome.addSteps)
  {
  }

  // ---------- one visit ----------

  /** What a visit keeps: the message names no new character, and stays true. */
  ghost predicate VisitApart(t: MTxn, r: Served)
    requires InRange(t)
  {
    r.fate.Forwarded? ==> TrueTxn(r.world, r.fate.txn) && Names(Pending(r.fate.txn)) <= Names(Pending(t))
  }

  lemma NamesOf(steps: seq<MStep>, step: MStep)
    requires step in steps && step.concern == CHARACTER
    ensures step.key in Names(steps)
  {
  }

  lemma MissedApart(w: World, t: MTxn, off: CompoundOffset, freshKey: string)
    requires TrueTxn(w, t) && AllQuiet(w, Pending(t), true) && AdmitAt(w, t, off).Missed?
    ensures VisitApart(t, Serve(w, t, off, freshKey))
  {
    ServeMissed(w, t, off, freshKey);
    CurrentInFlight(t);
    ArrivedShape(t, off);
    assert Quiet(w, Pending(t)[0], true);
    var t1, step := Serve(w, t, off, freshKey).fate.txn, Arrived(t, off);
    CurrentInFlight(t1);
    MissedNames(t, t1, step, off);
  }

  lemma MissedNames(t: MTxn, t1: MTxn, step: MStep, off: CompoundOffset)
    requires DetourOf(t, t1, step, off) && NoDetours(Pending(t)[1..]) && step.concern == Current(t).concern
    requires (step.concern == CHARACTER ==> step.key == Current(t).key) && !IsCharRead(step) && !IsCharRefresh(step)
    ensures NoDetours(Pending(t1)[1..]) && Names(Pending(t1)) <= Names(Pending(t))
  {
    var waiting, rest := if step.command.Read? then [] else [step], Pending(t)[1..];
    assert Pending(t1)[1..] == waiting + rest;
    assert Pending(t) == [Current(t)] + rest;
    forall x | x in Pending(t1) && x.concern == CHARACTER ensures x.key in Names(Pending(t)) {
      NamesOf(Pending(t), if x in rest then x else Current(t));
    }
  }

  lemma SuccessApart(w: World, t: MTxn, r: Served, step: MStep, settled: MStep, add: seq<MStep>, off: CompoundOffset)
    requires TrueTxn(w, t) && SuccessOf(t, r.fate, settled, add, off) && AddsApart(w, step, add) && r.world.db == w.db
    requires step.system == Current(t).system && step.concern == Current(t).concern
             && step.command == Current(t).command
             && (step.concern == CHARACTER ==> step.key == Current(t).key)
    requires IsCharRead(step) ==> r.world.chars == w.chars
    ensures VisitApart(t, r)
  {
    if r.fate.Forwarded? {
      var rest := Pending(t)[1..];
      CurrentInFlight(t);
      CurrentInFlight(r.fate.txn);
      assert Pending(t) == [Current(t)] + rest;
      SuccessNames(Current(t), rest, add, settled, off, step);
      SuccessFront(w, r.world, step, rest, add, settled, off);
    }
  }

  /** What comes next is true. */
  lemma SuccessFront(w: World, after: World, step: MStep, rest: seq<MStep>, add: seq<MStep>, settled: MStep,
                     off: CompoundOffset)
    requires (IsCharRead(step) ==> step.key !in w.chars) && NoDetours(rest) && AddsApart(w, step, add)
             && after.db == w.db
             && settled.result.Some? && add + rest != [] && (IsCharRead(step) ==> after.chars == w.chars)
    ensures var q := InheritFirst(add + rest, settled, off); FrontTrue(after, q[0]) && NoDetours(q[1..])
  {
    var q, next := InheritFirst(add + rest, settled, off), (add + rest)[0];
    assert q[1..] == (add + rest)[1..];
    if add == [] {
      assert add + rest == rest;
      assert next in rest;
    } else {
      assert next == add[0] && add[0] in add && (add + rest)[1..] == add[1..] + rest;
      if !IsCharRead(step) { NoDetoursTail(add); }
    }
  }

  lemma NoDetoursTail(steps: seq<MStep>)
    requires NoDetours(steps) && steps != []
    ensures NoDetours(steps[1..])
  {
  }

  lemma SuccessNames(front: MStep, rest: seq<MStep>, add: seq<MStep>, settled: MStep, off: CompoundOffset, step: MStep)
    requires settled.result.Some? && step.concern == front.concern
             && (step.concern == CHARACTER ==> step.key == front.key)
    requires forall a :: a in add && a.concern == CHARACTER ==> step.concern == CHARACTER && a.key == step.key
    ensures Names(InheritFirst(add + rest, settled, off)) <= Names([front] + rest)
  {
    var q := InheritFirst(add + rest, settled, off);
    forall x | x in q && x.concern == CHARACTER ensures x.key in Names([front] + rest) {
      var i :| 0 <= i < |q| && q[i] == x;
      var y := (add + rest)[i];
      assert x.key == y.key && x.concern == y.concern && (y in add || y in rest);
      NamesOf([front] + rest, if y in rest then y else front);
    }
  }

  lemma AnyApart(w: World, t: MTxn, off: CompoundOffset, freshKey: string)
    requires TrueTxn(w, t) && AllQuiet(w, Pending(t), true) && CharsKeyed(w.db) && freshKey != ""
    ensures VisitApart(t, Serve(w, t, off, freshKey))
  {
    if AdmitAt(w, t, off).Missed? {
      MissedApart(w, t, off, freshKey);
    } else if AdmitAt(w, t, off).Admitted? && AnsweredOk(Answered(w, t, off, freshKey)) {
      ServeAdmitted(w, t, off, freshKey);
      CurrentInFlight(t);
      ArrivedShape(t, off);
      var step, inst := Arrived(t, off), AdmitAt(w, t, off).inst;
      assert Quiet(w, Pending(t)[0], true) && Quiet(w, step, true);
      HandlerAddsApart(w, step, inst, off, freshKey);
      QuietKeeps(w, step, inst, off, freshKey);
      SuccessApart(w, t, Serve(w, t, off, freshKey), step, SettledStep(w, t, off, freshKey),
                   Answered(w, t, off, freshKey).outcome.addSteps, off);
    } else {
      ServeStops(w, t, off, freshKey);
    }
  }

  lemma QuietKeeps(w: World, step: MStep, inst: Option<Bytes>, off: CompoundOffset, freshKey: string)
    requires Quiet(w, step, true)
    ensures var a := HandleCommand(w, step, inst, off, freshKey);
            a.state.db == w.db && (IsCharRead(step) ==> a.state.chars == w.chars)
  {
  }

  // ---------- every event ----------

  /** A message that does not name the character stays true. */
  lemma OthersTrue(w: World, after: World, key: string, off: CompoundOffset, t: MTxn)
    requires TrueTxn(w, t) && after.db == w.db && CharAt(w, key, off, after.chars, true) && key !in Names(Pending(t))
    ensures TrueTxn(after, t)
  {
    CurrentInFlight(t);
    var step := Current(t);
    if step.concern == CHARACTER {
      NamesOf(Pending(t), step);
      assert forall kind :: CharBalance(after, step.key, kind) == CharBalance(w, step.key, kind);
    }
  }

  lemma OtherApart(s: Bank, i: nat, off: CompoundOffset, r: Served, k: nat)
    requires Apart(s) && i < |s.stream| && k < |s.stream| && k != i && r.world.db == s.w.db
    requires CharsAfter(s.w, s.stream[i], off, r.world.chars, true)
    ensures TrueTxn(r.world, s.stream[k]) && Names(Pending(s.stream[k])) !! Names(Pending(s.stream[i]))
  {
    var cur := s.stream[i];
    CurrentInFlight(cur);
    assert if k < i then Names(Pending(s.stream[k])) !! Names(Pending(cur))
           else Names(Pending(cur)) !! Names(Pending(s.stream[k]));
    if r.world.chars != s.w.chars {
      NamesOf(Pending(cur), Current(cur));
      OthersTrue(s.w, r.world, Current(cur).key, off, s.stream[k]);
    } else {
      assert TrueTxn(s.w, s.stream[k]);
      SameTrue(s.w, r.world, s.stream[k]);
    }
  }

  lemma SameTrue(w: World, after: World, t: MTxn)
    requires TrueTxn(w, t) && after.db == w.db && after.chars == w.chars
    ensures TrueTxn(after, t)
  {
    assert forall k, kind :: CharBalance(after, k, kind) == CharBalance(w, k, kind);
  }

  /** Where the j-th of the other messages was. */
  function Place(i: nat, j: nat): nat { if j < i then j else j + 1 }

  lemma DeliverTrue(s: Bank, i: nat, off: CompoundOffset, r: Served, j: nat)
    requires Apart(s) && i < |s.stream| && j < |s.stream| - 1 && r.world.db == s.w.db
    requires CharsAfter(s.w, s.stream[i], off, r.world.chars, true)
    ensures var other := Without(s.stream, i)[j];
            TrueTxn(r.world, other) && Names(Pending(other)) !! Names(Pending(s.stream[i]))
  {
    assert Without(s.stream, i)[j] == s.stream[Place(i, j)];
    OtherApart(s, i, off, r, Place(i, j));
  }

  lemma OthersApart(s: Bank, i: nat, j: nat, k: nat)
    requires Apart(s) && i < |s.stream| && j < k < |s.stream| - 1
    ensures var others := Without(s.stream, i);
            InRange(others[j]) && InRange(others[k]) && Names(Pending(others[j])) !! Names(Pending(others[k]))
  {
    var others := Without(s.stream, i);
    assert others[j] == s.stream[Place(i, j)] && others[k] == s.stream[Place(i, k)];
    assert TrueTxn(s.w, s.stream[Place(i, j)]) && TrueTxn(s.w, s.stream[Place(i, k)]);
  }

  lemma DeliverApart(s: Bank, i: nat, off: CompoundOffset, r: Served)
    requires Apart(s) && i < |s.stream| && InRange(s.stream[i])
             && (ToCharacters(Current(s.stream[i])) ==> off.offset >= 0)
    requires VisitApart(s.stream[i], r) && r.world.db == s.w.db
             && CharsAfter(s.w, s.stream[i], off, r.world.chars, true)
    ensures Apart(Delivered(s, i, off, r))
  {
    var others, stream, n := Without(s.stream, i), Delivered(s, i, off, r).stream, |s.stream| - 1;
    forall j | 0 <= j < |stream| ensures TrueTxn(r.world, stream[j]) {
      if j < n {
        DeliverTrue(s, i, off, r, j);
        assert stream[j] == others[j];
      }
    }
    forall j, k | 0 <= j < k < |stream| ensures Names(Pending(stream[j])) !! Names(Pending(stream[k])) {
      assert stream[j] == others[j];
      DeliverTrue(s, i, off, r, j);
      if k < n {
        OthersApart(s, i, j, k);
        assert stream[k] == others[k];
      }
    }
  }

  lemma SubmitApart(s: Bank, txn: MTxn, hash: string -> int)
    requires Apart(s) && Enabled(s, Submit(txn), hash, true) && Careful(s, Submit(txn))
    ensures Apart(s.(stream := s.stream + [txn]))
  {
    var t := s.(stream := s.stream + [txn]);
    assert InFlight(txn) && Pending(txn) == txn.forwardSteps;
    CurrentInFlight(txn);
    forall step | step in Pending(txn)[1..] ensures !IsCharRead(step) && !IsCharRefresh(step) {
      assert step in txn.forwardSteps;
    }
    assert Teller(txn.forwardSteps[0]);
    forall j, k | 0 <= j < k < |t.stream| ensures Names(Pending(t.stream[j])) !! Names(Pending(t.stream[k])) {
      assert t.stream[j] == s.stream[j];
      assert InRange(s.stream[j]);
    }
  }

  lemma CancelApart(s: Bank, i: nat)
    requires Apart(s) && i < |s.stream|
    ensures Apart(s.(stream := Without(s.stream, i), ended := s.ended + [Cancel(s.stream[i]).txn]))
  {
    var others := Without(s.stream, i);
    assert forall j :: 0 <= j < |others| ==> others[j] == s.stream[if j < i then j else j + 1];
  }

  lemma WritesApart(s: Bank, db: MDb)
    requires Apart(s) && WritesCached(s.w, db)
    ensures Apart(s.(w := s.w.(db := db)))
  {
    var w := s.w.(db := db);
    forall i | 0 <= i < |s.stream| ensures TrueTxn(w, s.stream[i]) {
      var step := Current(s.stream[i]);
      assert step.key !in s.w.chars ==>
               forall kind :: CharBalance(w, step.key, kind) == CharBalance(s.w, step.key, kind);
    }
  }

  lemma NextApart(s: Bank, e: Event, hash: string -> int, keys: seq<string>, v: View)
    requires Apart(s) && Inv(s, hash, true) && Enumerates(keys, s.w) && Enabled(s, e, hash, true) && Careful(s, e)
    ensures Apart(Next(s, e, hash, true)) && Drift(s, e, v) == 0
  {
    match e
    case Submit(txn) => SubmitApart(s, txn, hash);
    case CancelTxn(i) => CancelApart(s, i);
    case StorageWrites(db) => WritesApart(s, db);
    case Deliver(i, off, freshKey) =>
      CurrentInFlight(s.stream[i]);
      assert ToCharacters(Current(s.stream[i])) ==> InstanceStores.InOrder(s.w.chars, Current(s.stream[i]).key, off);
      VisitQuiet(s.w, s.stream[i], off, freshKey, keys, v, true);
      AnyApart(s.w, s.stream[i], off, freshKey);
      DeliverApart(s, i, off, Serve(s.w, s.stream[i], off, freshKey));
  }

  /** In every history in which transactions are submitted with care, no refresh brings
      anything in, and the sum is conserved, whatever the caches held. */
  lemma {:induction false} ApartConserves(states: seq<Bank>, events: seq<Event>, hash: string -> int,
                                          plans: set<seq<Entry>>, keys: seq<string>, v: View, n: nat)
    requires IsHistory(states, events, hash, plans, true) && n < |states|
    requires Inv(states[0], hash, true) && Enumerates(keys, states[0].w) && Booked(states[0], plans) && Apart(states[0])
    requires forall i :: 0 <= i < |events| ==> Careful(states[i], events[i])
    ensures Apart(states[n]) && Drifts(states, events, v, n) == 0
    ensures Cong(Funds(keys, states[n], v), Funds(keys, states[0], v))
    decreases n
  {
    Accounting(states, events, hash, plans, keys, v, n, true);
    if n > 0 {
      var i := n - 1;
      ApartConserves(states, events, hash, plans, keys, v, i);
      Accounting(states, events, hash, plans, keys, v, i, true);
      assert Enabled(states[i], events[i], hash, true) && states[i + 1] == Next(states[i], events[i], hash, true);
      NextApart(states[i], events[i], hash, keys, v);
    }
  }
}
