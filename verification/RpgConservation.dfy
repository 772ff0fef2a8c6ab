/**
 Conservation of currency under interleaving. Any number of transactions made of Fund,
 DebitFunds, CreditFunds and Read steps on characters (trades among them) run against any
 caches, their messages delivered in any order, some of them cancelled or failing half-way.
 For each of the four currencies and modulo 2^32, the balances of all characters plus what
 has been debited and not credited, less what has been funded, change by what refreshes
 bring in that differs from the balance in view (`Accounting`), and by nothing at all when
 the caches are warm (`Conservation`).
 */
module RpgConservation {
  import opened Wrappers
  import opened Seqs
  import opened Offsets
  import opened ApecsTxns
  import opened ApecsRunners
  import opened ApecsInvariants
  import opened InstanceStores
  import opened RamDbs
  import opened Rpg
  import opened RpgWorlds

  // ---------- amounts ----------

  datatype Kind = Gold | Faction0 | Faction1 | Faction2

  function Amount(c: Currency, kind: Kind): int {
    match kind case Gold => c.gold case Faction0 => c.faction0 case Faction1 => c.faction1 case Faction2 => c.faction2
  }

  /** Equal as 32-bit numbers. */
  ghost predicate Cong(a: int, b: int) { exists n: int :: a - b == Wraps(n) }

  function Wraps(n: int): int { n * TWO32 }

  lemma CongMod(a: int, b: int)
    ensures Cong(a, b) <==> (a - b) % TWO32 == 0
    ensures Cong(a, b) <==> a % TWO32 == b % TWO32
  {
    if (a - b) % TWO32 == 0 {
      assert a - b == Wraps((a - b) / TWO32);
    }
  }

  lemma CongTrans(a: int, b: int, c: int)
    requires Cong(a, b) && Cong(b, c)
    ensures Cong(a, c)
  {
    var m: int :| a - b == Wraps(m);
    var n: int :| b - c == Wraps(n);
    assert a - c == Wraps(m + n);
  }

  lemma CongSum(a: int, b: int, x: int, y: int)
    requires Cong(a, b) && x - y == a - b
    ensures Cong(x, y)
  {
  }

  function Balance(i: Instance, kind: Kind): int {
    if i.CharacterInst? && i.c.currency.Some? then Amount(i.c.currency.value, kind) else 0
  }

  /** One currency of some of the characters: of all of them, or of just one. */
  datatype View = View(kind: Kind, who: set<string>)

  predicate Known(w: World, k: string) { k in w.chars || Lookup(w.db, CHARACTER, k).Some? }

  /** A character's balance: as cached, or else as stored. */
  function CharBalance(w: World, k: string, kind: Kind): int {
    if k in w.chars then Balance(w.chars[k].inst, kind)
    else if Lookup(w.db, CHARACTER, k).Some? then Balance(Lookup(w.db, CHARACTER, k).value.inst, kind)
    else 0
  }

  function Balances(keys: seq<string>, w: World, v: View): int {
    if keys == [] then 0
    else (if keys[0] in v.who then CharBalance(w, keys[0], v.kind) else 0) + Balances(keys[1..], w, v)
  }

  /** A currency movement: what a step takes out of a character's balance. */
  datatype Entry = Entry(name: string, key: string, amount: Currency)

  predicate IsEntry(step: MStep) {
    step.system.Process? && step.concern == CHARACTER && step.command.Platform? && step.key != "" && step.payload.Some?
    && step.payload.value.Funding? && step.payload.value.fr.currency.Some?
  }

  /** A command on a character has its key from the start. */
  predicate OwnKey(step: MStep) {
    step.system.Process? && step.concern == CHARACTER && step.command.Platform? ==> step.key != ""
  }

  function EntryOf(step: MStep): seq<Entry> {
    if IsEntry(step) then [Entry(step.command.name, step.key, step.payload.value.fr.currency.value)] else []
  }

  function Entries(steps: seq<MStep>): seq<Entry> {
    if steps == [] then [] else EntryOf(steps[0]) + Entries(steps[1..])
  }

  lemma OneEntry(step: MStep)
    ensures Entries([step]) == EntryOf(step)
  {
    assert [step][1..] == [];
    assert EntryOf(step) + [] == EntryOf(step);
  }

  /** What a command takes out of a balance. */
  function Moved(name: string, amount: Currency, kind: Kind): int {
    if name == "DebitFunds" then Amount(amount, kind)
    else if name == "Fund" || name == "CreditFunds" then -Amount(amount, kind)
    else 0
  }

  function TakenBy(e: Entry, v: View): int { if e.key in v.who then Moved(e.name, e.amount, v.kind) else 0 }

  function Taken(entries: seq<Entry>, v: View): int {
    if entries == [] then 0 else TakenBy(entries[0], v) + Taken(entries[1..], v)
  }

  /** The steps before the first one that is not OK. */
  function OkPrefix(steps: seq<MStep>): (r: seq<MStep>)
    ensures r <= steps
  {
    if steps == [] || !DoneOk(steps[0]) then [] else [steps[0]] + OkPrefix(steps[1..])
  }

  function Outstanding(txn: MTxn, v: View): int { Taken(Entries(OkPrefix(txn.forwardSteps)), v) }

  function Ledger(txns: seq<MTxn>, v: View): int {
    if txns == [] then 0 else Outstanding(txns[0], v) + Ledger(txns[1..], v)
  }

  // ---------- lists ----------

  lemma {:induction false} EntriesAppend(a: seq<MStep>, b: seq<MStep>)
    ensures Entries(a + b) == Entries(a) + Entries(b)
    decreases |a|
  {
    if a == [] {
      assert a + b == b;
    } else {
      assert (a + b)[1..] == a[1..] + b;
      EntriesAppend(a[1..], b);
      Assoc(EntryOf(a[0]), Entries(a[1..]), Entries(b));
    }
  }

  lemma {:induction false} TakenAppend(a: seq<Entry>, b: seq<Entry>, v: View)
    ensures Taken(a + b, v) == Taken(a, v) + Taken(b, v)
    decreases |a|
  {
    if a == [] {
      assert a + b == b;
    } else {
      assert (a + b)[1..] == a[1..] + b;
      TakenAppend(a[1..], b, v);
    }
  }

  lemma {:induction false} LedgerAppend(a: seq<MTxn>, b: seq<MTxn>, v: View)
    ensures Ledger(a + b, v) == Ledger(a, v) + Ledger(b, v)
    decreases |a|
  {
    if a == [] {
      assert a + b == b;
    } else {
      assert (a + b)[1..] == a[1..] + b;
      LedgerAppend(a[1..], b, v);
    }
  }

  lemma LedgerOne(t: MTxn, v: View)
    ensures Ledger([t], v) == Outstanding(t, v)
  {
    assert [t][1..] == [];
  }

  lemma LedgerRemove(s: seq<MTxn>, i: nat, v: View)
    requires i < |s|
    ensures Ledger(s, v) == Ledger(s[..i] + s[i + 1..], v) + Outstanding(s[i], v)
  {
    assert s == s[..i] + ([s[i]] + s[i + 1..]);
    LedgerAppend(s[..i], [s[i]] + s[i + 1..], v);
    LedgerAppend([s[i]], s[i + 1..], v);
    LedgerAppend(s[..i], s[i + 1..], v);
    LedgerOne(s[i], v);
  }

  /** The OK prefix of a list whose first part is all OK and whose second part starts with
      a step that is not. */
  lemma {:induction false} OkPrefixSplit(a: seq<MStep>, b: seq<MStep>)
    requires AllOk(a) && (b != [] ==> !DoneOk(b[0]))
    ensures OkPrefix(a + b) == a
    decreases |a|
  {
    if a == [] {
      assert a + b == b;
    } else {
      assert (a + b)[1..] == a[1..] + b;
      OkPrefixSplit(a[1..], b);
    }
  }

  ghost predicate Enumerates(keys: seq<string>, w: World) {
    && (forall i, j :: 0 <= i < j < |keys| ==> keys[i] != keys[j])
    && forall k :: Known(w, k) <==> k in keys
  }

  /** The balances of all characters but one are the same. */
  ghost predicate SameBalances(w: World, after: World, key: string, kind: Kind) {
    forall k :: k != key ==> CharBalance(after, k, kind) == CharBalance(w, k, kind)
  }

  lemma {:induction false} BalancesUpdate(keys: seq<string>, w: World, after: World, key: string, v: View)
    requires (forall i, j :: 0 <= i < j < |keys| ==> keys[i] != keys[j]) && SameBalances(w, after, key, v.kind)
    ensures Balances(keys, after, v) ==
              Balances(keys, w, v) + if key in keys
                  && key in v.who then CharBalance(after, key, v.kind) - CharBalance(w, key, v.kind) else 0
    decreases |keys|
  {
    if keys != [] {
      BalancesUpdate(keys[1..], w, after, key, v);
    }
  }

  // ---------- one step of logic ----------

  /** Each command moves exactly what its entry says, modulo 2^32. */
  lemma CommandMoves(name: string, c: Character, fr: FundingRequest, kind: Kind)
    requires RunCommand(name, c, fr).Done?
    ensures fr.currency.Some?
    ensures Cong(Balance(CharacterInst(RunCommand(name, c, fr).value), kind) + Moved(name, fr.currency.value, kind),
                 Balance(CharacterInst(c), kind))
  {
    assert fr.currency.Some? && (name == "Fund" || name == "DebitFunds" || name == "CreditFunds");
    if name == "DebitFunds" {
      MinusMoves(c.currency.value, fr.currency.value, kind);
    } else {
      PlusMoves(if c.currency.Some? then c.currency.value else NO_FUNDS, fr.currency.value, kind);
    }
  }

  /** No amount in any currency is negative, and none exceeds what a debit compares it with. */
  predicate Payable(amount: Currency) {
    0 <= amount.gold && 0 <= amount.faction0 && 0 <= amount.faction1 && 0 <= amount.faction2
  }

  predicate Covered(amount: Currency, have: Currency) {
    amount.gold <= have.gold && amount.faction0 <= have.faction0 && amount.faction1 <= have.faction0
        && amount.faction2 <= have.faction0
  }

  /** What becomes of each command: without an amount it panics, a negative one it refuses; a debit
      or a credit of a character that never had funds panics, a debit beyond them is refused; all
      else goes through and leaves the rest of the character as it is. */
  lemma CommandRuns(name: string, c: Character, fr: FundingRequest)
    ensures var r := RunCommand(name, c, fr);
            if name != "Fund" && name != "DebitFunds" && name != "CreditFunds" then r == Refused(Internal)
            else if fr.currency == None then r == Panicked
            else if !Payable(fr.currency.value) then r == Refused(InvalidArgument)
            else if name != "Fund" && c.currency == None then r == Panicked
            else if name == "DebitFunds" && !Covered(fr.currency.value, c.currency.value)
              then r == Refused(InvalidArgument)
            else r.Done? && r.value.currency.Some? && r.value == c.(currency := r.value.currency)
  {
  }

  lemma PlusMoves(a: Currency, b: Currency, kind: Kind)
    ensures Cong(Amount(Plus(a, b), kind) - Amount(b, kind), Amount(a, kind))
  {
    CongMod(Amount(Plus(a, b), kind) - Amount(b, kind), Amount(a, kind));
  }

  lemma MinusMoves(a: Currency, b: Currency, kind: Kind)
    ensures Cong(Amount(Minus(a, b), kind) + Amount(b, kind), Amount(a, kind))
  {
    CongMod(Amount(Minus(a, b), kind) + Amount(b, kind), Amount(a, kind));
  }

  predicate IsInt32(x: int) { -TWO31 <= x < TWO31 }

  /** A debit that is let through never wraps gold or the first faction and leaves neither
      negative; each other faction, whatever its balance, it leaves non-negative exactly when
      the amount does not exceed that balance, or the difference wraps around. */
  lemma DebitBounds(c: Character, fr: FundingRequest)
    requires DebitFunds(c, fr).Done? && c.currency.Some? && fr.currency.Some?
    requires forall kind :: IsInt32(Amount(c.currency.value, kind)) && IsInt32(Amount(fr.currency.value, kind))
    ensures DebitFunds(c, fr).value.currency.Some?
    ensures var have, amount, left := c.currency.value, fr.currency.value, DebitFunds(c, fr).value.currency.value;
            && left.gold == have.gold - amount.gold >= 0
            && left.faction0 == have.faction0 - amount.faction0 >= 0
            && (left.faction1 >= 0 <==> amount.faction1 <= have.faction1 || have.faction1 - amount.faction1 < -TWO31)
            && (left.faction2 >= 0 <==> amount.faction2 <= have.faction2 || have.faction2 - amount.faction2 < -TWO31)
  {
    assert IsInt32(Amount(c.currency.value, Gold)) && IsInt32(Amount(fr.currency.value, Gold));
    assert IsInt32(Amount(c.currency.value, Faction0)) && IsInt32(Amount(fr.currency.value, Faction0));
    assert IsInt32(Amount(c.currency.value, Faction1)) && IsInt32(Amount(fr.currency.value, Faction1));
    assert IsInt32(Amount(c.currency.value, Faction2)) && IsInt32(Amount(fr.currency.value, Faction2));
  }

  /** A debit that leaves a faction negative. */
  lemma DebitOverdraws(c: Character, fr: FundingRequest)
    requires c.currency == Some(Currency(0, 5, 0, 0)) && fr.currency == Some(Currency(0, 0, 3, 0))
    ensures DebitFunds(c, fr).Done? && DebitFunds(c, fr).value.currency == Some(Currency(0, 5, -3, 0))
  {
  }

  // ---------- the system ----------

  /** Caches and database, messages in the stream, messages that have left it, and the read
      position of each partition of the Character PROCESS topic. */
  datatype Bank = Bank(w: World, stream: seq<MTxn>, ended: seq<MTxn>, position: map<int, nat>)

  datatype Event =
    | Submit(txn: MTxn)
    | Deliver(i: nat, off: CompoundOffset, freshKey: string)
    | CancelTxn(i: nat)
    | StorageWrites(db: MDb) // asynchronous updates of items already stored

  function Position(s: Bank, p: int): nat { if p in s.position then s.position[p] else 0 }

  /** What is found in messages: such steps, what they lead to, and the detour of a step whose
      character is not cached. On warm caches nobody has stored that character either. */
  predicate Quiet(w: World, step: MStep, cold: bool) {
    if step.concern == CHARACTER then
      || (step.system.Process? && step.key != "" && (step.command.Platform? || step.command.Read?))
      || (step.system.Storage? && step.command.Read? && step.key != "" && (cold || step.key !in w.chars))
      || (step.system.Process? && step.command.RefreshInstance? && step.key != "" && cold && Known(w, step.key))
    else
      || (step.system.Process? && step.command.RefreshRelated?)
      || (step.system.Process? && step.command.RefreshInstance?)
      || (step.system.Storage? && step.command.Read?)
  }

  predicate AllQuiet(w: World, steps: seq<MStep>, cold: bool) {
    forall i :: 0 <= i < |steps| ==> Quiet(w, steps[i], cold)
  }

  /** Every stored character is cached. */
  ghost predicate Warm(w: World) {
    forall k :: Lookup(w.db, CHARACTER, k).Some? ==> k in w.chars
  }

  /** Characters are stored under their own keys. */
  ghost predicate CharsKeyed(db: MDb) {
    forall k :: Lookup(db, CHARACTER, k).Some? ==> InstKey(Lookup(db, CHARACTER, k).value.inst) == k
  }

  ghost predicate Based(w: World, cold: bool) { if cold then CharsKeyed(w.db) else Warm(w) }

  /** Every cached character was last written by a message of its own partition, already read. */
  ghost predicate Written(s: Bank, hash: string -> int) {
    forall k :: k in s.w.chars ==>
      var o := s.w.chars[k].cmpdOffset;
      o.generation == 0 && o.partition == hash(k) && o.offset < Position(s, hash(k))
  }

  ghost predicate Inv(s: Bank, hash: string -> int, cold: bool) {
    && Based(s.w, cold) && Written(s, hash)
    && forall i :: 0 <= i < |s.stream| ==> InFlight(s.stream[i]) && AllQuiet(s.w, Pending(s.stream[i]), cold)
  }

  /** Only items of cached characters have changed. */
  ghost predicate WritesCached(w: World, db: MDb) {
    CharsKeyed(db) && forall k :: k !in w.chars ==> Lookup(db, CHARACTER, k) == Lookup(w.db, CHARACTER, k)
  }

  ghost predicate Enabled(s: Bank, e: Event, hash: string -> int, cold: bool) {
    match e
    case Submit(txn) =>
      Validate(txn) && txn.currentStepIdx == 0 && forall i ::
            0 <= i < |txn.forwardSteps| ==> Teller(txn.forwardSteps[i])
    case Deliver(i, off, freshKey) =>
      i < |s.stream| && InRange(s.stream[i]) && freshKey != "" &&
      // a partition is read in order, and a step is sent to the partition of its key
      (ToCharacters(Current(s.stream[i])) ==>
         var p := hash(Current(s.stream[i]).key); off == CompoundOffset(0, p, Position(s, p)))
    case CancelTxn(i) => i < |s.stream| && InRange(s.stream[i])
    case StorageWrites(db) =>
      (forall k :: Lookup(db, CHARACTER, k).Some? ==> Lookup(s.w.db, CHARACTER, k).Some?)
          && (cold ==> WritesCached(s.w, db))
  }

  /** The message at `i` has been served. */
  function Delivered(s: Bank, i: nat, off: CompoundOffset, r: Served): Bank
    requires i < |s.stream| && InRange(s.stream[i]) && (ToCharacters(Current(s.stream[i])) ==> off.offset >= 0)
  {
    var position := if ToCharacters(Current(s.stream[i])) then s.position[off.partition := off.offset + 1]
    else s.position;
    if r.fate.Forwarded? then Bank(r.world, Without(s.stream, i) + [r.fate.txn], s.ended, position)
    else Bank(r.world, Without(s.stream, i), s.ended + [r.fate.txn], position)
  }

  function Next(s: Bank, e: Event, hash: string -> int, cold: bool): Bank
    requires Enabled(s, e, hash, cold)
  {
    match e
    case Submit(txn) => s.(stream := s.stream + [txn])
    case Deliver(i, off, freshKey) => Delivered(s, i, off, Serve(s.w, s.stream[i], off, freshKey))
    case CancelTxn(i) => s.(stream := Without(s.stream, i), ended := s.ended + [Cancel(s.stream[i]).txn])
    case StorageWrites(db) => s.(w := s.w.(db := db))
  }

  /** The balances in view, plus what every transaction so far has taken out of them. */
  function Funds(keys: seq<string>, s: Bank, v: View): int {
    Balances(keys, s.w, v) + Ledger(s.stream, v) + Ledger(s.ended, v)
  }

  /** A refresh of a character that its handler accepts. */
  predicate Refreshes(step: MStep) {
    && ToCharacters(step) && step.command.RefreshInstance? && step.payload.Some?
    && PayloadInst(step.payload.value).Some?
    && IsA(PayloadInst(step.payload.value).value, CHARACTER)
    && (step.payload.value.Packed? && step.payload.value.rel.Some? ==> RelIsA(step.payload.value.rel.value, CHARACTER))
  }

  /** What a refresh brings in beyond the balance in view. */
  function DriftBy(w: World, step: MStep, kind: Kind): int {
    if Refreshes(step) then Balance(PayloadInst(step.payload.value).value, kind) - CharBalance(w, step.key, kind) else 0
  }

  function DriftIn(w: World, step: MStep, v: View): int { if step.key in v.who then DriftBy(w, step, v.kind) else 0 }

  /** What an event brings in: the drift of the step it delivers. */
  function Drift(s: Bank, e: Event, v: View): int {
    if e.Deliver? && e.i < |s.stream| && InRange(s.stream[e.i]) then DriftIn(s.w, Current(s.stream[e.i]), v) else 0
  }

  // ---------- one visit ----------

  function MovedByStep(step: MStep, kind: Kind): int {
    if IsEntry(step) then Moved(step.command.name, step.payload.value.fr.currency.value, kind) else 0
  }

  function TakenByStep(step: MStep, v: View): int { if step.key in v.who then MovedByStep(step, v.kind) else 0 }

  /** What a successful handler of a quiet step does. */
  ghost predicate QuietEffect(w: World, step: MStep, off: CompoundOffset, a: Answer<World>, v: View, cold: bool) {
    && AnsweredOk(a) && a.state.db == w.db
    && (!ToCharacters(step) ==> a.state.chars == w.chars)
    && (ToCharacters(step) ==>
          && CharAt(w, step.key, off, a.state.chars, cold)
          && Cong(CharBalance(a.state, step.key, v.kind) + MovedByStep(step, v.kind),
                  CharBalance(w, step.key, v.kind) + DriftBy(w, step, v.kind)))
    && AllQuiet(w, a.outcome.addSteps, cold) && Entries(a.outcome.addSteps) == []
    && (a.outcome.result.value.payload.Some? ==> !a.outcome.result.value.payload.value.Funding?)
    && (a.outcome.result.value.payload.None? ==> !(step.payload.Some? && step.payload.value.Funding?))
  }

  /** At most the record of one character is written, at this offset; on warm caches one
      that is cached. */
  ghost predicate CharAt(w: World, key: string, off: CompoundOffset, chars: MStore, cold: bool) {
    && Known(w, key) && (!cold ==> key in w.chars)
    && (chars == w.chars || exists rec :: chars == w.chars[key := rec] && rec.cmpdOffset == off)
  }

  lemma QuietHandler(w: World, step: MStep, inst: Option<Bytes>, off: CompoundOffset, freshKey: string, v: View,
                     cold: bool)
    requires Quiet(w, step, cold) && Based(w, cold) && AnsweredOk(HandleCommand(w, step, inst, off, freshKey))
    requires ToCharacters(step) ==> InOrder(w.chars, step.key, off)
    requires ToCharacters(step) && NeedsInstance(step) ==> step.key in w.chars
                                                           && inst == Some(Inst(w.chars[step.key].inst))
    requires !NeedsInstance(step) ==> inst.None?
    ensures QuietEffect(w, step, off, HandleCommand(w, step, inst, off, freshKey), v, cold)
  {
    assert Wraps(0) == 0;
    if step.concern == CHARACTER {
      if step.system.Storage? {
        StorageReadHandler(w, step, inst, off, freshKey, v, cold);
      } else if step.command.RefreshInstance? {
        RefreshHandler(w, step, off, freshKey, v, cold);
      } else if step.command.Platform? {
        PlatformHandler(w.chars, step, off, v);
      }
    } else {
      QuietPlayerHandler(w, step, inst, off, freshKey, v, cold);
    }
  }

  lemma StorageReadHandler(w: World, step: MStep, inst: Option<Bytes>, off: CompoundOffset, freshKey: string, v: View,
                           cold: bool)
    requires Quiet(w, step, cold) && Based(w, cold) && step.concern == CHARACTER && step.system.Storage?
    requires AnsweredOk(HandleCommand(w, step, inst, off, freshKey))
    ensures QuietEffect(w, step, off, HandleCommand(w, step, inst, off, freshKey), v, cold)
  {
    var add := HandleCommand(w, step, inst, off, freshKey).outcome.addSteps;
    assert |add| == 1 && add[0].system.Process? && add[0].command.RefreshInstance? && add[0].concern == CHARACTER
           && add[0].key == step.key;
    NoEntries(add);
  }

  lemma RefreshHandler(w: World, step: MStep, off: CompoundOffset, freshKey: string, v: View, cold: bool)
    requires Quiet(w, step, cold) && ToCharacters(step) && step.command.RefreshInstance?
             && InOrder(w.chars, step.key, off)
    requires AnsweredOk(HandleCommand(w, step, None, off, freshKey))
    ensures QuietEffect(w, step, off, HandleCommand(w, step, None, off, freshKey), v, cold)
  {
    var a := HandleCommand(w, step, None, off, freshKey);
    var i := PayloadInst(step.payload.value).value;
    var given := if step.payload.value.Packed? then step.payload.value.rel else None;
    var rec := Rec(i, if given.Some? then given else GetRelated(w.chars, step.key), off);
    assert a.state.chars == w.chars[step.key := rec];
    assert CharBalance(a.state, step.key, v.kind) == CharBalance(w, step.key, v.kind) + DriftBy(w, step, v.kind);
    assert Wraps(0) == 0;
  }

  lemma QuietPlayerHandler(w: World, step: MStep, inst: Option<Bytes>, off: CompoundOffset, freshKey: string, v: View,
                           cold: bool)
    requires Quiet(w, step, cold) && step.concern != CHARACTER
             && AnsweredOk(HandleCommand(w, step, inst, off, freshKey))
    requires !NeedsInstance(step) ==> inst.None?
    ensures QuietEffect(w, step, off, HandleCommand(w, step, inst, off, freshKey), v, cold)
  {
    var add := HandleCommand(w, step, inst, off, freshKey).outcome.addSteps;
    if step.system.Storage? {
      assert |add| == 1 && add[0].concern == PLAYER;
      NoEntries(add);
    } else {
      assert add == [];
    }
  }

  lemma PlatformHandler(store: MStore, step: MStep, off: CompoundOffset, v: View)
    requires ToCharacters(step) && step.command.Platform? && step.key in store && step.key != ""
             && InOrder(store, step.key, off)
    requires var a := HandlePlatform(CHARACTER, step.command.name,
                                     LogicArgs(step.key, Some(store[step.key].inst), step.payload, off), store);
             a.outcome.result.Some? && a.outcome.result.value.code.Ok?
    ensures var a := HandlePlatform(CHARACTER, step.command.name,
                                    LogicArgs(step.key, Some(store[step.key].inst), step.payload, off), store);
            && (a.state == store || exists rec :: a.state == store[step.key := rec] && rec.cmpdOffset == off)
            && step.key in a.state
            && Cong(Balance(a.state[step.key].inst, v.kind) + MovedByStep(step, v.kind),
                    Balance(store[step.key].inst, v.kind))
            && Entries(a.outcome.addSteps) == []
            && (forall i :: 0 <= i < |a.outcome.addSteps| ==>
                  var t := a.outcome.addSteps[i];
                  t.system.Process? && if t.concern == CHARACTER then t.command.Read?
                      && t.key == step.key else t.command.RefreshRelated?)
            && a.outcome.result.value.payload.Some? && a.outcome.result.value.payload.value.Inst?
  {
    var was, fr := store[step.key].inst.c, step.payload.value.fr;
    CommandMoves(step.command.name, was, fr, v.kind);
    var now := RunCommand(step.command.name, was, fr).value;
    var a := HandlePlatform(CHARACTER, step.command.name, LogicArgs(step.key, Some(store[step.key].inst), step.payload,
                                                                    off), store);
    if now != was {
      var rec := Rec(CharacterInst(now), GetRelated(store, step.key), off);
      assert a.state == store[step.key := rec];
      NoEntries(a.outcome.addSteps);
    }
  }

  lemma {:induction false} NoEntries(steps: seq<MStep>)
    requires forall i :: 0 <= i < |steps| ==> !IsEntry(steps[i])
    ensures Entries(steps) == []
  {
    if steps != [] {
      NoEntries(steps[1..]);
    }
  }

  lemma EntryTaken(step: MStep, v: View)
    ensures Taken(EntryOf(step), v) == TakenByStep(step, v)
  {
    assert IsEntry(step) ==> EntryOf(step)[1..] == [];
  }

  /** At most the record of the current step's character is written. */
  ghost predicate CharsAfter(w: World, txn: MTxn, off: CompoundOffset, chars: MStore, cold: bool)
    requires InRange(txn)
  {
    chars == w.chars || (ToCharacters(Current(txn)) && CharAt(w, Current(txn).key, off, chars, cold))
  }

  /** What every visit to a quiet message keeps. */
  ghost predicate VisitKeeps(w: World, txn: MTxn, off: CompoundOffset, r: Served, keys: seq<string>, v: View,
                             cold: bool)
    requires InRange(txn)
  {
    && r.world.db == w.db
    && CharsAfter(w, txn, off, r.world.chars, cold)
    && (r.fate.Forwarded? ==> InFlight(r.fate.txn) && AllQuiet(w, Pending(r.fate.txn), cold))
    && Cong(Balances(keys, r.world, v) + Outstanding(r.fate.txn, v),
            Balances(keys, w, v) + Outstanding(txn, v) + DriftIn(w, Current(txn), v))
    && Entries(r.fate.txn.forwardSteps) == Entries(txn.forwardSteps)
  }

  lemma InFlightPrefix(txn: MTxn)
    requires InFlight(txn)
    ensures OkPrefix(txn.forwardSteps) == Finished(txn) && txn.forwardSteps == Finished(txn) + Pending(txn)
    ensures Entries(txn.forwardSteps) == Entries(Finished(txn)) + Entries(Pending(txn))
  {
    CurrentInFlight(txn);
    assert txn.forwardSteps == Finished(txn) + Pending(txn);
    OkPrefixSplit(Finished(txn), Pending(txn));
    EntriesAppend(Finished(txn), Pending(txn));
  }

  lemma PendingEntries(txn: MTxn)
    requires InFlight(txn)
    ensures Entries(Pending(txn)) == EntryOf(Current(txn)) + Entries(Pending(txn)[1..])
  {
    CurrentInFlight(txn);
  }

  lemma DetourEntries(txn: MTxn, t: MTxn, step: MStep, off: CompoundOffset, v: View)
    requires DetourOf(txn, t, step, off) && SameOrder(Current(txn), step) && OwnKey(Current(txn))
    ensures Outstanding(t, v) == Outstanding(txn, v) && Entries(t.forwardSteps) == Entries(txn.forwardSteps)
  {
    InFlightPrefix(txn);
    InFlightPrefix(t);
    PendingEntries(txn);
    DetourList(step, off, Pending(txn)[1..]);
  }

  lemma DetourList(step: MStep, off: CompoundOffset, rest: seq<MStep>)
    ensures Entries([StorageRead(step, off)] + (if step.command.Read? then [] else [step]) + rest)
              == EntryOf(step) + Entries(rest)
  {
    var read, wait := StorageRead(step, off), if step.command.Read? then [] else [step];
    EntriesAppend([read] + wait, rest);
    EntriesAppend([read], wait);
    OneEntry(read);
    OneEntry(step);
  }

  lemma DetourQuiet(w: World, txn: MTxn, t: MTxn, step: MStep, off: CompoundOffset, cold: bool)
    requires DetourOf(txn, t, step, off) && AllQuiet(w, Pending(txn), cold) && Quiet(w, step, cold)
             && Quiet(w, StorageRead(step, off), cold)
    ensures AllQuiet(w, Pending(t), cold)
  {
    var front := [StorageRead(step, off)] + (if step.command.Read? then [] else [step]);
    forall i | 0 <= i < |Pending(t)| ensures Quiet(w, Pending(t)[i], cold) {
      if i >= |front| { assert Pending(t)[i] == Pending(txn)[1 + i - |front|]; }
    }
  }

  lemma MissedKeeps(w: World, txn: MTxn, off: CompoundOffset, freshKey: string, keys: seq<string>, v: View, cold: bool)
    requires InFlight(txn) && AllQuiet(w, Pending(txn), cold) && AdmitAt(w, txn, off).Missed?
    ensures VisitKeeps(w, txn, off, Serve(w, txn, off, freshKey), keys, v, cold)
  {
    ServeMissed(w, txn, off, freshKey);
    CurrentInFlight(txn);
    ArrivedShape(txn, off);
    var t, step := Serve(w, txn, off, freshKey).fate.txn, Arrived(txn, off);
    assert Quiet(w, Current(txn), cold) && !Refreshes(Current(txn));
    DetourQuiet(w, txn, t, step, off, cold);
    DetourEntries(txn, t, step, off, v);
    assert Wraps(0) == 0;
  }

  /** A successful visit moves the current step's entry to the finished ones. */
  lemma SuccessEntries(txn: MTxn, fate: Fate<Bytes>, settled: MStep, add: seq<MStep>, off: CompoundOffset, v: View)
    requires SuccessOf(txn, fate, settled, add, off) && SameOrder(Current(txn), settled) && OwnKey(Current(txn))
             && Entries(add) == []
    requires settled.result.value.payload.Some? ==> !settled.result.value.payload.value.Funding?
    ensures Outstanding(fate.txn, v) == Outstanding(txn, v) + TakenByStep(settled, v)
    ensures Entries(fate.txn.forwardSteps) == Entries(txn.forwardSteps)
  {
    InFlightPrefix(txn);
    var done, rest := Finished(txn), Pending(txn)[1..];
    FinishedEntries(done, settled, v);
    if fate.Forwarded? {
      InFlightPrefix(fate.txn);
      InheritKeepsEntries(add + rest, settled, off);
      PlanKept(txn, settled, add);
    } else {
      assert rest == [];
      OkPrefixSplit(done + [settled], []);
      assert done + [settled] + [] == done + [settled];
      PlanKept(txn, settled, add);
      assert Entries(add + rest) == [];
    }
  }

  lemma PlanKept(txn: MTxn, settled: MStep, add: seq<MStep>)
    requires InFlight(txn) && SameOrder(Current(txn), settled) && OwnKey(Current(txn)) && Entries(add) == []
    ensures Entries(Finished(txn) + [settled]) + Entries(add + Pending(txn)[1..])
              == Entries(Finished(txn)) + Entries(Pending(txn))
  {
    PendingEntries(txn);
    assert EntryOf(Current(txn)) == EntryOf(settled);
    EntriesAppend(Finished(txn), [settled]);
    OneEntry(settled);
    EntriesAppend(add, Pending(txn)[1..]);
    var rest := Entries(Pending(txn)[1..]);
    assert Entries(add) + rest == rest;
    Assoc(Entries(Finished(txn)), EntryOf(settled), rest);
  }

  lemma FinishedEntries(done: seq<MStep>, settled: MStep, v: View)
    ensures Taken(Entries(done + [settled]), v) == Taken(Entries(done), v) + TakenByStep(settled, v)
  {
    EntriesAppend(done, [settled]);
    OneEntry(settled);
    TakenAppend(Entries(done), EntryOf(settled), v);
    EntryTaken(settled, v);
  }

  lemma InheritKeepsEntries(steps: seq<MStep>, done: MStep, off: CompoundOffset)
    requires done.result.Some?
    requires done.result.value.payload.Some? ==> !done.result.value.payload.value.Funding?
    ensures Entries(InheritFirst(steps, done, off)) == Entries(steps)
  {
  }

  lemma SuccessQuiet(w: World, txn: MTxn, fate: Fate<Bytes>, settled: MStep, add: seq<MStep>, off: CompoundOffset,
                     cold: bool)
    requires SuccessOf(txn, fate, settled, add, off) && AllQuiet(w, Pending(txn), cold) && AllQuiet(w, add, cold)
             && fate.Forwarded?
    ensures AllQuiet(w, Pending(fate.txn), cold)
  {
    var rest := Pending(txn)[1..];
    forall i | 0 <= i < |add + rest| ensures Quiet(w, (add + rest)[i], cold) {
      if i >= |add| { assert (add + rest)[i] == Pending(txn)[1 + i - |add|]; }
    }
  }

  lemma BalancesAfter(w: World, after: World, key: string, off: CompoundOffset, keys: seq<string>, v: View, cold: bool)
    requires Enumerates(keys, w) && after.db == w.db && CharAt(w, key, off, after.chars, cold)
    ensures Balances(keys, after, v) - Balances(keys, w, v) ==
              if key in v.who then CharBalance(after, key, v.kind) - CharBalance(w, key, v.kind) else 0
  {
    assert SameBalances(w, after, key, v.kind);
    BalancesUpdate(keys, w, after, key, v);
  }

  lemma SuccessFunds(txn: MTxn, fate: Fate<Bytes>, settled: MStep, add: seq<MStep>, off: CompoundOffset, before: int,
                     after: int, v: View)
    requires SuccessOf(txn, fate, settled, add, off) && SameOrder(Current(txn), settled) && OwnKey(Current(txn))
             && Entries(add) == []
    requires settled.result.value.payload.Some? ==> !settled.result.value.payload.value.Funding?
    requires Cong(after + TakenByStep(settled, v), before)
    ensures Entries(fate.txn.forwardSteps) == Entries(txn.forwardSteps)
    ensures Cong(after + Outstanding(fate.txn, v), before + Outstanding(txn, v))
  {
    SuccessEntries(txn, fate, settled, add, off, v);
    CongSum(after + TakenByStep(settled, v), before, after + Outstanding(fate.txn, v), before + Outstanding(txn, v));
  }

  lemma SuccessKeeps(w: World, txn: MTxn, off: CompoundOffset, a: Answer<World>, step: MStep, settled: MStep, r: Served,
                     keys: seq<string>, v: View, cold: bool)
    requires InFlight(txn) && AllQuiet(w, Pending(txn), cold) && Enumerates(keys, w)
    requires QuietEffect(w, step, off, a, v, cold) && SameOrder(Current(txn), step)
             && (ToCharacters(step) ==> step.key == Current(txn).key)
    requires SameOrder(Current(txn), settled) && OwnKey(Current(txn)) && SameOrder(step, settled)
             && step.key == settled.key
    requires settled.result.Some? && (settled.result.value.payload.Some? ==>
                                        !settled.result.value.payload.value.Funding?)
    requires r.world == a.state && SuccessOf(txn, r.fate, settled, a.outcome.addSteps, off)
    ensures VisitKeeps(w, txn, off, r, keys, v, cold)
  {
    assert CharsAfter(w, txn, off, r.world.chars, cold);
    EffectBalances(w, step, off, a, keys, v, cold);
    assert TakenByStep(settled, v) == TakenByStep(step, v);
    assert DriftIn(w, step, v) == DriftIn(w, Current(txn), v);
    SuccessFunds(txn, r.fate, settled, a.outcome.addSteps, off, Balances(keys, w, v) + DriftIn(w, step, v),
                 Balances(keys, r.world, v), v);
    if r.fate.Forwarded? {
      SuccessQuiet(w, txn, r.fate, settled, a.outcome.addSteps, off, cold);
    }
  }

  lemma EffectBalances(w: World, step: MStep, off: CompoundOffset, a: Answer<World>, keys: seq<string>, v: View,
                       cold: bool)
    requires Enumerates(keys, w) && QuietEffect(w, step, off, a, v, cold)
    ensures Cong(Balances(keys, a.state, v) + TakenByStep(step, v), Balances(keys, w, v) + DriftIn(w, step, v))
  {
    assert Wraps(0) == 0;
    if ToCharacters(step) {
      BalancesAfter(w, a.state, step.key, off, keys, v, cold);
      if step.key in v.who {
        CongSum(CharBalance(a.state, step.key, v.kind) + MovedByStep(step, v.kind),
                CharBalance(w, step.key, v.kind) + DriftBy(w, step, v.kind),
                Balances(keys, a.state, v) + TakenByStep(step, v), Balances(keys, w, v) + DriftIn(w, step, v));
      }
    } else {
      BalancesUnchanged(keys, w, a.state, v);
    }
  }

  lemma {:induction false} BalancesUnchanged(keys: seq<string>, w: World, after: World, v: View)
    requires forall k :: CharBalance(after, k, v.kind) == CharBalance(w, k, v.kind)
    ensures Balances(keys, after, v) == Balances(keys, w, v)
  {
    if keys != [] { BalancesUnchanged(keys[1..], w, after, v); }
  }

  lemma AdmittedKeeps(w: World, txn: MTxn, off: CompoundOffset, freshKey: string, keys: seq<string>, v: View,
                      cold: bool)
    requires InFlight(txn) && AllQuiet(w, Pending(txn), cold) && Based(w, cold) && Enumerates(keys, w)
    requires ToCharacters(Current(txn)) ==> InOrder(w.chars, Current(txn).key, off)
    requires AdmitAt(w, txn, off).Admitted? && AnsweredOk(Answered(w, txn, off, freshKey))
    ensures VisitKeeps(w, txn, off, Serve(w, txn, off, freshKey), keys, v, cold)
  {
    ServeAdmitted(w, txn, off, freshKey);
    CurrentInFlight(txn);
    ArrivedShape(txn, off);
    var a, step, inst := Answered(w, txn, off, freshKey), Arrived(txn, off), AdmitAt(w, txn, off).inst;
    assert Quiet(w, Current(txn), cold) && Quiet(w, step, cold);
    QuietHandler(w, step, inst, off, freshKey, v, cold);
    SuccessKeeps(w, txn, off, a, step, Settle(step, a.outcome.result.value, inst), Serve(w, txn, off, freshKey), keys,
                 v, cold);
  }

  lemma FailedEntries(txn: MTxn, fate: Fate<Bytes>, v: View)
    requires FailureOf(txn, fate) && OwnKey(Current(txn))
    ensures Outstanding(fate.txn, v) == Outstanding(txn, v)
            && Entries(fate.txn.forwardSteps) == Entries(txn.forwardSteps)
  {
    InFlightPrefix(txn);
    PendingEntries(txn);
    var t := fate.txn;
    assert t.forwardSteps == Finished(t) + Pending(t);
    OkPrefixSplit(Finished(t), Pending(t));
    EntriesAppend(Finished(t), Pending(t));
    assert EntryOf(Current(txn)) == EntryOf(Current(t)) && Pending(t)[0] == Current(t);
  }

  /** An acceptable refresh is accepted. */
  lemma RefreshAccepted(w: World, txn: MTxn, off: CompoundOffset, freshKey: string)
    requires InFlight(txn) && Refreshes(Current(txn)) && Current(txn).key != ""
    ensures AdmitAt(w, txn, off).Admitted? && AnsweredOk(Answered(w, txn, off, freshKey))
  {
    CurrentInFlight(txn);
    ArrivedShape(txn, off);
  }

  lemma StopsKeeps(w: World, txn: MTxn, off: CompoundOffset, freshKey: string, keys: seq<string>, v: View, cold: bool)
    requires InFlight(txn) && OwnKey(Current(txn)) && freshKey != "" && !AdmitAt(w, txn, off).Missed?
             && !Refreshes(Current(txn))
    requires AdmitAt(w, txn, off).Rejected? || !AnsweredOk(Answered(w, txn, off, freshKey))
    ensures VisitKeeps(w, txn, off, Serve(w, txn, off, freshKey), keys, v, cold)
  {
    ServeStops(w, txn, off, freshKey);
    FailedEntries(txn, Serve(w, txn, off, freshKey).fate, v);
    assert Wraps(0) == 0;
  }

  lemma VisitQuiet(w: World, txn: MTxn, off: CompoundOffset, freshKey: string, keys: seq<string>, v: View, cold: bool)
    requires InFlight(txn) && AllQuiet(w, Pending(txn), cold) && Based(w, cold) && Enumerates(keys, w) && freshKey != ""
    requires ToCharacters(Current(txn)) ==> InOrder(w.chars, Current(txn).key, off)
    ensures VisitKeeps(w, txn, off, Serve(w, txn, off, freshKey), keys, v, cold)
  {
    if AdmitAt(w, txn, off).Missed? {
      MissedKeeps(w, txn, off, freshKey, keys, v, cold);
    } else if AdmitAt(w, txn, off).Rejected? || !AnsweredOk(Answered(w, txn, off, freshKey)) {
      CurrentInFlight(txn);
      assert Quiet(w, Pending(txn)[0], cold);
      if Refreshes(Current(txn)) { RefreshAccepted(w, txn, off, freshKey); }
      StopsKeeps(w, txn, off, freshKey, keys, v, cold);
    } else {
      AdmittedKeeps(w, txn, off, freshKey, keys, v, cold);
    }
  }

  // ---------- every event ----------

  /** The entries of every message, in the stream or not, are those of a submitted plan. */
  ghost predicate Booked(s: Bank, plans: set<seq<Entry>>) {
    forall t :: t in s.stream || t in s.ended ==> Entries(t.forwardSteps) in plans
  }

  lemma {:induction false} TellerTakesNothing(txn: MTxn, v: View)
    requires forall i :: 0 <= i < |txn.forwardSteps| ==> Teller(txn.forwardSteps[i])
    ensures Outstanding(txn, v) == 0
  {
  }

  lemma SubmitKeeps(s: Bank, txn: MTxn, hash: string -> int, keys: seq<string>, v: View, cold: bool)
    requires Inv(s, hash, cold) && Enabled(s, Submit(txn), hash, cold)
    ensures var t := Next(s, Submit(txn), hash, cold); Inv(t, hash, cold) && Funds(keys, t, v) == Funds(keys, s, v)
  {
    LedgerAppend(s.stream, [txn], v);
    LedgerOne(txn, v);
    TellerTakesNothing(txn, v);
    assert InFlight(txn);
    assert Pending(txn) == txn.forwardSteps;
  }

  lemma CancelledEntries(txn: MTxn, v: View)
    requires InFlight(txn) && OwnKey(Current(txn))
    ensures Outstanding(Cancel(txn).txn, v) == Outstanding(txn, v)
            && Entries(Cancel(txn).txn.forwardSteps) == Entries(txn.forwardSteps)
  {
    CurrentInFlight(txn);
    FailedEntries(txn, Cancel(txn), v);
  }

  lemma CancelKeeps(s: Bank, i: nat, hash: string -> int, keys: seq<string>, v: View, cold: bool)
    requires Inv(s, hash, cold) && Enabled(s, CancelTxn(i), hash, cold)
    ensures var t := Next(s, CancelTxn(i), hash, cold); Inv(t, hash, cold) && Funds(keys, t, v) == Funds(keys, s, v)
    ensures Entries(Cancel(s.stream[i]).txn.forwardSteps) == Entries(s.stream[i].forwardSteps)
  {
    var txn := s.stream[i];
    assert Pending(txn)[0] == Current(txn) && Quiet(s.w, Pending(txn)[0], cold);
    CancelledEntries(txn, v);
    CancelLedger(s, i, Cancel(txn).txn, v);
    StreamStays(s, i, s.w, [], hash, cold);
    assert Without(s.stream, i) + [] == Without(s.stream, i);
  }

  lemma CancelLedger(s: Bank, i: nat, t: MTxn, v: View)
    requires i < |s.stream| && Outstanding(t, v) == Outstanding(s.stream[i], v)
    ensures Ledger(Without(s.stream, i), v) + Ledger(s.ended + [t], v) == Ledger(s.stream, v) + Ledger(s.ended, v)
  {
    LedgerRemove(s.stream, i, v);
    LedgerAppend(s.ended, [t], v);
    LedgerOne(t, v);
  }

  /** The same characters are known and, on warm caches, cached. */
  ghost predicate SameKnown(w: World, after: World, cold: bool) {
    (forall k :: Known(w, k) <==> Known(after, k)) && (!cold ==> after.chars.Keys == w.chars.Keys)
  }

  /** The stream after a delivery stays quiet. */
  lemma StreamStays(s: Bank, i: nat, w: World, more: seq<MTxn>, hash: string -> int, cold: bool)
    requires Inv(s, hash, cold) && i < |s.stream| && SameKnown(s.w, w, cold)
    requires forall j :: 0 <= j < |more| ==> InFlight(more[j]) && AllQuiet(s.w, Pending(more[j]), cold)
    ensures var stream := Without(s.stream, i) + more;
            forall j :: 0 <= j < |stream| ==> InFlight(stream[j]) && AllQuiet(w, Pending(stream[j]), cold)
  {
    var stream, n := Without(s.stream, i) + more, |s.stream| - 1;
    forall j | 0 <= j < |stream| ensures InFlight(stream[j]) && AllQuiet(w, Pending(stream[j]), cold) {
      if j < n {
        assert stream[j] == s.stream[if j < i then j else j + 1];
      } else {
        assert stream[j] == more[j - n];
      }
      StaysQuiet(s.w, w, Pending(stream[j]), cold);
    }
  }

  lemma StaysQuiet(w: World, after: World, steps: seq<MStep>, cold: bool)
    requires AllQuiet(w, steps, cold) && SameKnown(w, after, cold)
    ensures AllQuiet(after, steps, cold)
  {
    forall k | 0 <= k < |steps| ensures Quiet(after, steps[k], cold) {
      assert Quiet(w, steps[k], cold);
    }
  }

  lemma DeliverKeeps(s: Bank, i: nat, off: CompoundOffset, freshKey: string, hash: string -> int, keys: seq<string>,
                     v: View, cold: bool, r: Served)
    requires Inv(s, hash, cold) && Enumerates(keys, s.w) && Enabled(s, Deliver(i, off, freshKey), hash, cold)
    requires VisitKeeps(s.w, s.stream[i], off, r, keys, v, cold)
    ensures var t := Delivered(s, i, off, r);
            && Inv(t, hash, cold) && Enumerates(keys, t.w)
            && Cong(Funds(keys, t, v), Funds(keys, s, v) + Drift(s, Deliver(i, off, freshKey), v))
  {
    assert SameKnown(s.w, r.world, cold);
    var t := Delivered(s, i, off, r);
    var more := if r.fate.Forwarded? then [r.fate.txn] else [];
    StreamStays(s, i, r.world, more, hash, cold);
    assert t.stream == Without(s.stream, i) + more;
    DeliverWritten(s, i, off, freshKey, hash, cold, r);
    DeliverFunds(s, i, off, r, keys, v, Drift(s, Deliver(i, off, freshKey), v));
  }

  lemma DeliverFunds(s: Bank, i: nat, off: CompoundOffset, r: Served, keys: seq<string>, v: View, drift: int)
    requires i < |s.stream| && InRange(s.stream[i]) && (ToCharacters(Current(s.stream[i])) ==> off.offset >= 0)
    requires Cong(Balances(keys, r.world, v) + Outstanding(r.fate.txn, v),
                  Balances(keys, s.w, v) + Outstanding(s.stream[i], v) + drift)
    ensures Cong(Funds(keys, Delivered(s, i, off, r), v), Funds(keys, s, v) + drift)
  {
    DeliverLedger(s, i, off, r, v);
    var t := Delivered(s, i, off, r);
    CongSum(Balances(keys, r.world, v) + Outstanding(r.fate.txn, v),
            Balances(keys, s.w, v) + Outstanding(s.stream[i], v) + drift,
            Funds(keys, t, v), Funds(keys, s, v) + drift);
  }

  lemma DeliverLedger(s: Bank, i: nat, off: CompoundOffset, r: Served, v: View)
    requires i < |s.stream| && InRange(s.stream[i]) && (ToCharacters(Current(s.stream[i])) ==> off.offset >= 0)
    ensures var t := Delivered(s, i, off, r);
            Ledger(t.stream, v) + Ledger(t.ended, v) ==
              Ledger(s.stream, v) + Ledger(s.ended, v) - Outstanding(s.stream[i], v) + Outstanding(r.fate.txn, v)
  {
    LedgerRemove(s.stream, i, v);
    LedgerAppend(Without(s.stream, i), [r.fate.txn], v);
    LedgerAppend(s.ended, [r.fate.txn], v);
    LedgerOne(r.fate.txn, v);
  }

  lemma DeliverWritten(s: Bank, i: nat, off: CompoundOffset, freshKey: string, hash: string -> int, cold: bool,
                       r: Served)
    requires Written(s, hash) && Enabled(s, Deliver(i, off, freshKey), hash, cold)
    requires CharsAfter(s.w, s.stream[i], off, r.world.chars, cold)
    ensures Written(Delivered(s, i, off, r), hash)
  {
    var t, step := Delivered(s, i, off, r), Current(s.stream[i]);
    forall k | k in t.w.chars ensures t.w.chars[k].cmpdOffset.generation == 0
        && t.w.chars[k].cmpdOffset.partition == hash(k)
                                     && t.w.chars[k].cmpdOffset.offset < Position(t, hash(k)) {
      assert k in s.w.chars || (ToCharacters(step) && k == step.key);
    }
  }

  lemma DeliverAny(s: Bank, i: nat, off: CompoundOffset, freshKey: string, hash: string -> int, keys: seq<string>,
                   v: View, plans: set<seq<Entry>>, cold: bool)
    requires Inv(s, hash, cold) && Enumerates(keys, s.w) && Enabled(s, Deliver(i, off, freshKey), hash, cold)
             && Booked(s, plans)
    ensures var t := Delivered(s, i, off, Serve(s.w, s.stream[i], off, freshKey));
            && Inv(t, hash, cold) && Enumerates(keys, t.w) && Booked(t, plans)
            && Cong(Funds(keys, t, v), Funds(keys, s, v) + Drift(s, Deliver(i, off, freshKey), v))
  {
    CurrentInFlight(s.stream[i]);
    assert ToCharacters(Current(s.stream[i])) ==> InOrder(s.w.chars, Current(s.stream[i]).key, off);
    VisitQuiet(s.w, s.stream[i], off, freshKey, keys, v, cold);
    var r := Serve(s.w, s.stream[i], off, freshKey);
    DeliverKeeps(s, i, off, freshKey, hash, keys, v, cold, r);
    DeliverBooked(s, i, off, r, plans);
  }

  lemma DeliverBooked(s: Bank, i: nat, off: CompoundOffset, r: Served, plans: set<seq<Entry>>)
    requires i < |s.stream| && InRange(s.stream[i]) && (ToCharacters(Current(s.stream[i])) ==> off.offset >= 0)
    requires Booked(s, plans) && Entries(r.fate.txn.forwardSteps) == Entries(s.stream[i].forwardSteps)
    ensures Booked(Delivered(s, i, off, r), plans)
  {
    assert s.stream[i] in s.stream;
  }

  lemma CancelBooked(s: Bank, i: nat, t: MTxn, plans: set<seq<Entry>>)
    requires i < |s.stream| && Booked(s, plans) && Entries(t.forwardSteps) == Entries(s.stream[i].forwardSteps)
    ensures Booked(s.(stream := Without(s.stream, i), ended := s.ended + [t]), plans)
  {
    assert s.stream[i] in s.stream;
  }

  lemma StorageKeeps(s: Bank, db: MDb, hash: string -> int, keys: seq<string>, v: View, cold: bool)
    requires Inv(s, hash, cold) && Enabled(s, StorageWrites(db), hash, cold) && Enumerates(keys, s.w)
    ensures var t := s.(w := s.w.(db := db));
            Inv(t, hash, cold) && Enumerates(keys, t.w) && Funds(keys, t, v) == Funds(keys, s, v)
  {
    var t := s.(w := s.w.(db := db));
    forall k | k !in s.w.chars ensures Lookup(db, CHARACTER, k) == Lookup(s.w.db, CHARACTER, k) {
      assert !cold && Lookup(s.w.db, CHARACTER, k).Some? ==> k in s.w.chars;
    }
    assert SameKnown(s.w, t.w, cold);
    forall j | 0 <= j < |t.stream| ensures AllQuiet(t.w, Pending(t.stream[j]), cold) {
      StaysQuiet(s.w, t.w, Pending(s.stream[j]), cold);
    }
    BalancesUnchanged(keys, s.w, t.w, v);
  }

  lemma NextKeeps(s: Bank, e: Event, hash: string -> int, keys: seq<string>, v: View, plans: set<seq<Entry>>,
                  cold: bool)
    requires Inv(s, hash, cold) && Enumerates(keys, s.w) && Enabled(s, e, hash, cold) && Booked(s, plans)
    requires e.Submit? ==> Entries(e.txn.forwardSteps) in plans
    ensures var t := Next(s, e, hash, cold);
            && Inv(t, hash, cold) && Enumerates(keys, t.w) && Booked(t, plans)
            && Cong(Funds(keys, t, v), Funds(keys, s, v) + Drift(s, e, v))
  {
    assert Wraps(0) == 0;
    match e
    case Submit(txn) => SubmitKeeps(s, txn, hash, keys, v, cold);
    case Deliver(i, off, freshKey) => DeliverAny(s, i, off, freshKey, hash, keys, v, plans, cold);
    case CancelTxn(i) =>
      CancelKeeps(s, i, hash, keys, v, cold);
      CancelBooked(s, i, Cancel(s.stream[i]).txn, plans);
    case StorageWrites(db) => StorageKeeps(s, db, hash, keys, v, cold);
  }

  ghost predicate IsHistory(states: seq<Bank>, events: seq<Event>, hash: string -> int, plans: set<seq<Entry>>,
                            cold: bool) {
    && |states| == |events| + 1
    && forall i :: 0 <= i < |events| ==>
         && Enabled(states[i], events[i], hash, cold) && states[i + 1] == Next(states[i], events[i], hash, cold)
         && (events[i].Submit? ==> Entries(events[i].txn.forwardSteps) in plans)
  }

  /** What the first `n` events have brought in. */
  function Drifts(states: seq<Bank>, events: seq<Event>, v: View, n: nat): int
    requires n <= |events| && n <= |states|
  {
    if n == 0 then 0 else Drifts(states, events, v, n - 1) + Drift(states[n - 1], events[n - 1], v)
  }

  /** In every state of every history, on any caches, the balances in view, of all characters
      or of one, with what is in transit or stranded and less what was funded, have changed by
      what the refreshes so far have brought in beyond the balance in view; no message has
      lost its plan. */
  lemma {:induction false} Accounting(states: seq<Bank>, events: seq<Event>, hash: string -> int,
                                      plans: set<seq<Entry>>, keys: seq<string>, v: View, n: nat, cold: bool)
    requires IsHistory(states, events, hash, plans, cold) && n < |states|
    requires Inv(states[0], hash, cold) && Enumerates(keys, states[0].w) && Booked(states[0], plans)
    ensures Inv(states[n], hash, cold) && Enumerates(keys, states[n].w) && Booked(states[n], plans)
    ensures Cong(Funds(keys, states[n], v), Funds(keys, states[0], v) + Drifts(states, events, v, n))
    decreases n
  {
    if n > 0 {
      var i := n - 1;
      Accounting(states, events, hash, plans, keys, v, i, cold);
      assert Enabled(states[i], events[i], hash, cold) && states[i + 1] == Next(states[i], events[i], hash, cold);
      NextKeeps(states[i], events[i], hash, keys, v, plans, cold);
      var drift, first := Drift(states[i], events[i], v), Funds(keys, states[0], v);
      CongSum(Funds(keys, states[i], v), first + Drifts(states, events, v, i),
              Funds(keys, states[i], v) + drift, first + Drifts(states, events, v, n));
      CongTrans(Funds(keys, states[n], v), Funds(keys, states[i], v) + drift, first + Drifts(states, events, v, n));
    } else {
      assert Wraps(0) == 0;
    }
  }

  lemma CongSym(a: int, b: int)
    requires Cong(a, b)
    ensures Cong(b, a)
  {
    var n: int :| a - b == Wraps(n);
    assert b - a == Wraps(-n);
  }

  /** So the sum is conserved exactly when what refreshes have brought in is nothing, modulo 2^32. */
  lemma ConservedExactly(states: seq<Bank>, events: seq<Event>, hash: string -> int, plans: set<seq<Entry>>,
                         keys: seq<string>, v: View, n: nat, cold: bool)
    requires IsHistory(states, events, hash, plans, cold) && n < |states|
    requires Inv(states[0], hash, cold) && Enumerates(keys, states[0].w) && Booked(states[0], plans)
    ensures Cong(Funds(keys, states[n], v), Funds(keys, states[0], v)) <==> Cong(Drifts(states, events, v, n), 0)
  {
    Accounting(states, events, hash, plans, keys, v, n, cold);
    var now, first, drift := Funds(keys, states[n], v), Funds(keys, states[0], v), Drifts(states, events, v, n);
    if Cong(drift, 0) {
      CongSum(drift, 0, first + drift, first);
      CongTrans(now, first + drift, first);
    }
    if Cong(now, first) {
      CongSym(now, first + drift);
      CongTrans(first + drift, now, first);
      CongSum(first + drift, first, drift, 0);
    }
  }

  /** On warm caches no refresh of a character is ever delivered. */
  lemma {:induction false} WarmDrifts(states: seq<Bank>, events: seq<Event>, hash: string -> int,
                                      plans: set<seq<Entry>>, keys: seq<string>, v: View, n: nat)
    requires IsHistory(states, events, hash, plans, false) && n < |states|
    requires Inv(states[0], hash, false) && Enumerates(keys, states[0].w) && Booked(states[0], plans)
    ensures Drifts(states, events, v, n) == 0
    decreases n
  {
    if n > 0 {
      var i := n - 1;
      WarmDrifts(states, events, hash, plans, keys, v, i);
      Accounting(states, events, hash, plans, keys, v, i, false);
      NoDrift(states[i], events[i], hash, v);
    }
  }

  lemma NoDrift(s: Bank, e: Event, hash: string -> int, v: View)
    requires Inv(s, hash, false)
    ensures Drift(s, e, v) == 0
  {
    if e.Deliver? && e.i < |s.stream| && InRange(s.stream[e.i]) {
      CurrentInFlight(s.stream[e.i]);
      assert Quiet(s.w, Pending(s.stream[e.i])[0], false);
    }
  }

  /** On warm caches the sum is the same in every state of every history. */
  lemma Conservation(states: seq<Bank>, events: seq<Event>, hash: string -> int, plans: set<seq<Entry>>,
                     keys: seq<string>, v: View, n: nat)
    requires IsHistory(states, events, hash, plans, false) && n < |states|
    requires Inv(states[0], hash, false) && Enumerates(keys, states[0].w) && Booked(states[0], plans)
    ensures Inv(states[n], hash, false) && Enumerates(keys, states[n].w) && Booked(states[n], plans)
    ensures Cong(Funds(keys, states[n], v), Funds(keys, states[0], v))
  {
    Accounting(states, events, hash, plans, keys, v, n, false);
    WarmDrifts(states, events, hash, plans, keys, v, n);
  }

  // ---------- what trades and fundings leave in the ledger ----------

  /** A trade of `give`, from `lhs`, for `take`, from `rhs`. */
  datatype Deal = Deal(lhs: string, give: Currency, rhs: string, take: Currency)

  function TradePlan(d: Deal): seq<Entry> {
    [Entry("DebitFunds", d.lhs, d.give), Entry("DebitFunds", d.rhs, d.take), Entry("CreditFunds", d.lhs, d.take),
     Entry("CreditFunds", d.rhs, d.give)]
  }

  function DealOf(lhs: FundingRequest, rhs: FundingRequest): Deal
    requires lhs.currency.Some? && rhs.currency.Some?
  {
    Deal(lhs.characterId, lhs.currency.value, rhs.characterId, rhs.currency.value)
  }

  lemma {:induction false} TradeStepsPlan(lhs: FundingRequest, rhs: FundingRequest)
    requires lhs.currency.Some? && rhs.currency.Some? && lhs.characterId != "" && rhs.characterId != ""
    ensures Entries(TradeSteps(lhs, rhs)) == TradePlan(DealOf(lhs, rhs))
  {
    var t := TradeSteps(lhs, rhs);
    assert t == [t[0]] + ([t[1]] + ([t[2]] + [t[3]]));
    EntriesAppend([t[0]], [t[1]] + ([t[2]] + [t[3]]));
    EntriesAppend([t[1]], [t[2]] + [t[3]]);
    EntriesAppend([t[2]], [t[3]]);
    OneEntry(t[0]);
    OneEntry(t[1]);
    OneEntry(t[2]);
    OneEntry(t[3]);
  }

  lemma {:induction false} OkPrefixEntries(steps: seq<MStep>)
    ensures Entries(OkPrefix(steps)) <= Entries(steps)
    ensures AllOk(steps) ==> OkPrefix(steps) == steps
  {
    if steps != [] && DoneOk(steps[0]) {
      OkPrefixEntries(steps[1..]);
      var p := OkPrefix(steps);
      assert p[1..] == OkPrefix(steps[1..]);
    }
  }

  function When(b: bool, x: int): int { if b then x else 0 }

  /** What `k` moves of a trade have taken out of the balances in view. */
  function DealTaken(d: Deal, k: nat, v: View): int {
    var give, take := Amount(d.give, v.kind), Amount(d.take, v.kind);
    When(d.lhs in v.who, if k == 0 then 0 else if k < 3 then give else give - take)
    + When(d.rhs in v.who, if k < 2 then 0 else if k < 4 then take else take - give)
  }

  /** What a trade has taken out of the balances in view depends only on how many of its four
      moves are done: each side gives first and takes afterwards. */
  lemma TradeNet(txn: MTxn, d: Deal, v: View)
    requires Entries(txn.forwardSteps) == TradePlan(d)
    ensures var done := |Entries(OkPrefix(txn.forwardSteps))|;
            done <= 4 && Outstanding(txn, v) == DealTaken(d, done, v) && (AllOk(txn.forwardSteps) ==> done == 4)
  {
    OkPrefixEntries(txn.forwardSteps);
    var e := Entries(OkPrefix(txn.forwardSteps));
    PrefixTaken(d, |e|, v);
    assert e == TradePlan(d)[..|e|];
  }

  /** A complete trade has taken nothing out of all balances, and has moved what each side
      gives and takes between the two. */
  lemma TradeCompletes(txn: MTxn, d: Deal, kind: Kind)
    requires Entries(txn.forwardSteps) == TradePlan(d) && AllOk(txn.forwardSteps) && d.lhs != d.rhs
    ensures forall who :: d.lhs in who && d.rhs in who ==> Outstanding(txn, View(kind, who)) == 0
    ensures Outstanding(txn, View(kind, {d.lhs})) == Amount(d.give, kind) - Amount(d.take, kind)
    ensures Outstanding(txn, View(kind, {d.rhs})) == Amount(d.take, kind) - Amount(d.give, kind)
    ensures forall who :: d.lhs !in who && d.rhs !in who ==> Outstanding(txn, View(kind, who)) == 0
  {
    forall who ensures Outstanding(txn, View(kind, who)) == DealTaken(d, 4, View(kind, who)) {
      TradeNet(txn, d, View(kind, who));
    }
  }

  lemma PrefixTaken(d: Deal, k: nat, v: View)
    requires k <= 4
    ensures Taken(TradePlan(d)[..k], v) == DealTaken(d, k, v)
  {
    var p := TradePlan(d);
    assert |"DebitFunds"| == 10 && |"CreditFunds"| == 11;
    TakenLast(p, 0, v);
    TakenLast(p, 1, v);
    TakenLast(p, 2, v);
    TakenLast(p, 3, v);
    assert p[..0] == [];
  }

  lemma TakenLast(p: seq<Entry>, k: nat, v: View)
    requires k < |p|
    ensures Taken(p[..k + 1], v) == Taken(p[..k], v) + TakenBy(p[k], v)
  {
    assert p[..k + 1] == p[..k] + [p[k]];
    TakenAppend(p[..k], [p[k]], v);
    assert [p[k]][1..] == [];
  }

  lemma FundNet(txn: MTxn, key: string, amount: Currency, v: View)
    requires Entries(txn.forwardSteps) == [Entry("Fund", key, amount)]
    ensures Outstanding(txn, v) == if Entries(OkPrefix(txn.forwardSteps)) == [] then 0
            else When(key in v.who, -Amount(amount, v.kind))
    ensures AllOk(txn.forwardSteps) ==> Outstanding(txn, v) == When(key in v.who, -Amount(amount, v.kind))
  {
    OkPrefixEntries(txn.forwardSteps);
    var e := Entries(OkPrefix(txn.forwardSteps));
    if e != [] {
      assert e == [Entry("Fund", key, amount)];
      FundTaken(key, amount, v);
    }
  }

  lemma FundTaken(key: string, amount: Currency, v: View)
    ensures Taken([Entry("Fund", key, amount)], v) == When(key in v.who, -Amount(amount, v.kind))
  {
    var e := [Entry("Fund", key, amount)];
    assert e[1..] == [] && |"Fund"| == 4 && |"DebitFunds"| == 10;
  }
}
