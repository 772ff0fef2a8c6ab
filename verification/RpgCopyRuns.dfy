/**
 Cross-concern copies over whole runs: `CopiesAgree`. In every state every character that
 is linked to a player has one current copy, in the last refresh still on its way to the
 player or, when there is none, exactly once in the player's list.
 */
module RpgCopyRuns {
  import opened Wrappers
  import opened Offsets
  import opened ApecsTxns
  import opened ApecsRunners
  import opened InstanceStores
  import opened RamDbs
  import opened Rpg
  import opened RpgWorlds
  import opened RpgCopies

  // ---------- copies ----------

  predicate RefreshFor(t: MTxn, pid: string, k: string) {
    InRange(t) && IsRefresh(Current(t)) && Current(t).key == pid && Copy(Current(t)).id == k
  }

  /** The copy of character `k` in the last refresh on its way to player `pid`. */
  function Latest(stream: seq<MTxn>, pid: string, k: string): Option<Character> {
    if stream == [] then None
    else
      var n := |stream| - 1;
      if RefreshFor(stream[n], pid, k) then Some(Copy(Current(stream[n]))) else Latest(stream[..n], pid, k)
  }

  ghost predicate Agrees(w: World, stream: seq<MTxn>, k: string) {
    LinkOf(w, k).Some? && w.chars[k].inst.CharacterInst? ==>
      var pid, c := LinkOf(w, k).value, w.chars[k].inst.c;
      match Latest(stream, pid, k)
      case Some(copy) => copy == c
      case None => c in ListOf(w, pid)
  }

  lemma LatestAppend(stream: seq<MTxn>, t: MTxn, pid: string, k: string)
    ensures Latest(stream + [t], pid, k) == if RefreshFor(t, pid, k) then Some(Copy(Current(t)))
            else Latest(stream, pid, k)
  {
    assert (stream + [t])[..|stream|] == stream;
  }

  lemma {:induction false} LatestWithout(stream: seq<MTxn>, i: nat, pid: string, k: string)
    requires i < |stream| && !RefreshFor(stream[i], pid, k)
    ensures Latest(Without(stream, i), pid, k) == Latest(stream, pid, k)
    decreases |stream|
  {
    var n := |stream| - 1;
    if i == n {
      assert Without(stream, i) == stream[..n];
    } else {
      assert Without(stream, i) == Without(stream[..n], i) + [stream[n]];
      LatestWithout(stream[..n], i, pid, k);
      LatestAppend(Without(stream[..n], i), stream[n], pid, k);
    }
  }

  /** Taking the first refresh away leaves the last one, if it was not the only one. */
  lemma {:induction false} LatestFirst(stream: seq<MTxn>, i: nat, pid: string, k: string)
    requires i < |stream| && RefreshFor(stream[i], pid, k)
    requires forall j :: 0 <= j < i ==> !RefreshFor(stream[j], pid, k)
    ensures Latest(stream, pid, k).Some?
    ensures Latest(Without(stream, i), pid, k) == Latest(stream, pid, k)
            || (Latest(Without(stream, i), pid, k).None? && Latest(stream, pid, k) == Some(Copy(Current(stream[i]))))
    decreases |stream|
  {
    var n := |stream| - 1;
    if i == n {
      assert Without(stream, i) == stream[..n];
      LatestNone(stream[..n], pid, k);
    } else {
      assert Without(stream, i) == Without(stream[..n], i) + [stream[n]];
      LatestFirst(stream[..n], i, pid, k);
      LatestAppend(Without(stream[..n], i), stream[n], pid, k);
    }
  }

  lemma {:induction false} LatestNone(stream: seq<MTxn>, pid: string, k: string)
    requires forall j :: 0 <= j < |stream| ==> !RefreshFor(stream[j], pid, k)
    ensures Latest(stream, pid, k).None?
    decreases |stream|
  {
    if stream != [] {
      LatestNone(stream[..|stream| - 1], pid, k);
    }
  }

  // ---------- the effect of a visit ----------

  /** How a visit may leave the copy of a linked character. */
  ghost predicate CopyStep(w: World, after: World, txn: MTxn, fate: Fate<Bytes>, k: string, pid: string)
    requires InRange(txn) && k in after.chars && after.chars[k].inst.CharacterInst?
  {
    var c := after.chars[k].inst.c;
    || // nothing about it
       (&& LinkOf(w, k) == Some(pid) && w.chars[k].inst == after.chars[k].inst && !RefreshFor(txn, pid, k)
        && !(fate.Forwarded? && RefreshFor(fate.txn, pid, k)) && (c in ListOf(w, pid) ==> c in ListOf(after, pid)))
    || // a refresh reached the player
       (&& LinkOf(w, k) == Some(pid) && w.chars[k].inst == after.chars[k].inst && RefreshFor(txn, pid, k)
        && !(fate.Forwarded? && RefreshFor(fate.txn, pid, k)) && Copy(Current(txn)) in ListOf(after, pid))
    || // it changed, and a refresh is on its way
       (fate.Forwarded? && RefreshFor(fate.txn, pid, k) && Copy(Current(fate.txn)) == c)
    || // it has just been linked
       (c in ListOf(after, pid) && Making(txn, k) && !fate.Forwarded?)
  }

  /** Caches only grow, and change only where the message has its business. */
  ghost predicate CacheEffect(w: World, after: World, txn: MTxn, off: CompoundOffset)
    requires InRange(txn)
  {
    var step := Current(txn);
    && Stores(after)
    && (forall k :: k in w.players ==> k in after.players)
    && (forall k :: k in w.chars ==> k in after.chars)
    && (forall k :: k in after.chars ==>
          (k in w.chars && after.chars[k] == w.chars[k])
          || (ToCharacters(step) && k == step.key && after.chars[k].cmpdOffset == off && MentionsCharacter(txn, k)))
    && (forall k :: k in after.players ==>
          (k in w.players && after.players[k] == w.players[k])
          || (step.system.Process? && step.concern == PLAYER && k == step.key && after.players[k].cmpdOffset == off
              && MentionsPlayer(txn, k)))
    && (forall pid, c :: c in ListOf(w, pid) && !MentionsCharacter(txn, c.id) ==> c in ListOf(after, pid))
  }

  /** What is stored is cached, or about to be. */
  ghost predicate StoreEffect(w: World, after: World, txn: MTxn, fate: Fate<Bytes>, made: string)
    requires InRange(txn)
  {
    && (forall k :: Making(txn, k) ==> k in after.chars)
    && (forall k :: MakingPlayer(txn, k) ==> k in after.players)
    && (forall k :: Lookup(after.db, CHARACTER, k).Some? ==>
          Lookup(w.db, CHARACTER, k).Some? || (k == made && fate.Forwarded? && InRange(fate.txn)
                                               && Making(fate.txn, k)))
    && (forall k :: Lookup(after.db, PLAYER, k).Some? ==>
          Lookup(w.db, PLAYER, k).Some? || (k == made && fate.Forwarded? && InRange(fate.txn)
                                            && MakingPlayer(fate.txn, k)))
  }

  ghost predicate CopyEffect(w: World, after: World, txn: MTxn, fate: Fate<Bytes>)
    requires InRange(txn) && Stores(after)
  {
    forall k :: LinkOf(after, k).Some? ==> CharacterOk(after.chars[k], k, after.players)
                                           && CopyStep(w, after, txn, fate, k, LinkOf(after, k).value)
  }

  ghost predicate Effect(w: World, txn: MTxn, off: CompoundOffset, r: Served, made: string)
    requires InRange(txn)
  {
    && CacheEffect(w, r.world, txn, off) && StoreEffect(w, r.world, txn, r.fate, made)
    && CopyEffect(w, r.world, txn, r.fate)
    && (r.fate.Forwarded? ==> Fits(r.world, r.fate.txn) && Descends(w, txn, r.fate.txn, made))
  }

  lemma CurrentNamed(txn: MTxn)
    requires InFlight(txn)
    ensures ToCharacters(Current(txn)) && Current(txn).key != "" ==> MentionsCharacter(txn, Current(txn).key)
    ensures Current(txn).concern == PLAYER && Current(txn).key != "" ==> MentionsPlayer(txn, Current(txn).key)
    ensures forall k :: NamesCharacter(Current(txn), k) ==> MentionsCharacter(txn, k)
    ensures forall k :: Making(txn, k) && k != "" ==> MentionsCharacter(txn, k)
    ensures forall k :: MakingPlayer(txn, k) && k != "" ==> MentionsPlayer(txn, k)
  {
    CurrentInFlight(txn);
    forall k | NamesCharacter(Current(txn), k) ensures MentionsCharacter(txn, k) {
      assert NamesCharacter(Pending(txn)[0], k);
    }
    forall k | NamesPlayer(Current(txn), k) ensures MentionsPlayer(txn, k) {
      assert NamesPlayer(Pending(txn)[0], k);
    }
  }

  /** The world is as it was, and so are the copies, unless a refresh is involved. */
  lemma NoEffect(w: World, txn: MTxn, off: CompoundOffset, r: Served, made: string)
    requires InFlight(txn) && Stores(w) && r.world == w && !IsRefresh(Current(txn))
    requires forall k :: !Making(txn, k) || k in w.chars
    requires forall k :: !MakingPlayer(txn, k)
    requires r.fate.Forwarded? ==> Fits(w, r.fate.txn) && Descends(w, txn, r.fate.txn, made)
                                   && !IsRefresh(Current(r.fate.txn))
    ensures Effect(w, txn, off, r, made)
  {
  }

  lemma WorkEffect(w: World, txn: MTxn, off: CompoundOffset, r: Served, made: string)
    requires InFlight(txn) && Stores(w) && FitsWork(Pending(txn)) && WorkDone(w, txn, off, r, made)
    ensures Effect(w, txn, off, r, made)
  {
    CurrentInFlight(txn);
    CurrentNamed(txn);
    assert Teller(Pending(txn)[0]);
    if r.fate.Forwarded? {
      CurrentInFlight(r.fate.txn);
    }
    if r.world == w && (r.fate.Forwarded? ==> FitsLost(w, Pending(r.fate.txn)) || FitsWork(Pending(r.fate.txn))) {
      if r.fate.Forwarded? && FitsWork(Pending(r.fate.txn)) {
        assert Teller(Pending(r.fate.txn)[0]);
      }
      NoEffect(w, txn, off, r, made);
    } else {
      ChangeEffect(w, txn, off, r, made);
    }
  }

  lemma ChangeEffect(w: World, txn: MTxn, off: CompoundOffset, r: Served, made: string)
    requires InFlight(txn) && Stores(w) && FitsWork(Pending(txn)) && WorkDone(w, txn, off, r, made)
    requires !(r.world == w
               && (r.fate.Forwarded? ==> FitsLost(w, Pending(r.fate.txn)) || FitsWork(Pending(r.fate.txn))))
    ensures Effect(w, txn, off, r, made)
  {
    CurrentInFlight(txn);
    CurrentNamed(txn);
    assert Teller(Pending(txn)[0]);
    var k, after := Current(txn).key, r.world;
    assert CharacterOk(w.chars[k], k, w.players);
    assert Stores(after);
    if r.fate.Forwarded? {
      CurrentInFlight(r.fate.txn);
      if LinkOf(w, k).None? { assert Teller(Pending(r.fate.txn)[0]); }
      assert Fits(after, r.fate.txn);
    }
    forall j | LinkOf(after, j).Some?
      ensures CharacterOk(after.chars[j], j, after.players)
              && CopyStep(w, after, txn, r.fate, j, LinkOf(after, j).value)
    {
      assert CharacterOk(after.chars[j], j, after.players);
      assert LinkOf(w, j) == LinkOf(after, j);
      assert ListOf(after, LinkOf(after, j).value) == ListOf(w, LinkOf(after, j).value);
    }
  }

  lemma LostEffect(w: World, txn: MTxn, off: CompoundOffset, r: Served, made: string)
    requires InFlight(txn) && Stores(w) && FitsLost(w, Pending(txn)) && r.world == w && !r.fate.Forwarded?
    ensures Effect(w, txn, off, r, made)
  {
    CurrentInFlight(txn);
    NoEffect(w, txn, off, r, made);
  }

  lemma NewEffect(w: World, txn: MTxn, off: CompoundOffset, r: Served, made: string)
    requires InFlight(txn) && Stores(w) && FitsNew(Pending(txn)) && r.world == w
    requires r.fate.Forwarded? ==> InFlight(r.fate.txn) && FitsStore(Pending(r.fate.txn))
                                   && Descends(w, txn, r.fate.txn, made)
    ensures Effect(w, txn, off, r, made)
  {
    CurrentInFlight(txn);
    if r.fate.Forwarded? { CurrentInFlight(r.fate.txn); }
    NoEffect(w, txn, off, r, made);
  }

  lemma StoreEffectOf(w: World, txn: MTxn, off: CompoundOffset, r: Served, made: string, i: Instance, o: CompoundOffset)
    requires InFlight(txn) && Stores(w) && FitsStore(Pending(txn)) && IsA(i, Current(txn).concern)
    requires r.world == w.(db := Write(w.db, Current(txn).concern, made, i, None, o))
    requires r.fate.Forwarded? && InFlight(r.fate.txn) && Descends(w, txn, r.fate.txn, made)
             && Pending(r.fate.txn)[0].key == made
    requires if i.CharacterInst? then FitsCache(w, Pending(r.fate.txn)) else FitsCachePlayer(w, Pending(r.fate.txn))
    ensures Effect(w, txn, off, r, made)
  {
    CurrentInFlight(txn);
    CurrentInFlight(r.fate.txn);
    assert Stores(r.world);
    WriteAdds(w.db, Current(txn).concern, made, i, None, o);
    assert CacheEffect(w, r.world, txn, off);
  }

  lemma WriteAdds(db: MDb, concern: string, key: string, i: Instance, rel: Option<Related>, o: CompoundOffset)
    ensures forall n, k :: Lookup(Write(db, concern, key, i, rel, o), n, k).Some? ==>
                             Lookup(db, n, k).Some? || (n == concern && k == key)
  {
  }

  lemma CacheEffectOf(w: World, txn: MTxn, off: CompoundOffset, r: Served, made: string)
    requires InFlight(txn) && Stores(w) && FitsCache(w, Pending(txn)) && Current(txn) == Pending(txn)[0]
    requires r.world == w.(chars := w.chars[Current(txn).key := Rec(Current(txn).payload.value.inst, None, off)])
    requires r.fate.Forwarded? && InFlight(r.fate.txn) && FitsAsk(r.world, r.fate.txn)
             && Descends(w, txn, r.fate.txn, made)
    ensures Effect(w, txn, off, r, made)
  {
    CurrentNamed(txn);
    CurrentInFlight(r.fate.txn);
    forall j | j in r.world.chars ensures CharacterOk(r.world.chars[j], j, r.world.players) {
      assert j in w.chars ==> CharacterOk(w.chars[j], j, w.players);
    }
    forall j | LinkOf(r.world, j).Some?
      ensures CharacterOk(r.world.chars[j], j, r.world.players)
              && CopyStep(w, r.world, txn, r.fate, j, LinkOf(r.world, j).value)
    {
      assert LinkOf(w, j) == LinkOf(r.world, j);
      assert ListOf(r.world, LinkOf(r.world, j).value) == ListOf(w, LinkOf(r.world, j).value);
    }
  }

  lemma CachePlayerEffect(w: World, txn: MTxn, off: CompoundOffset, r: Served, made: string)
    requires InFlight(txn) && Stores(w) && FitsCachePlayer(w, Pending(txn)) && Current(txn) == Pending(txn)[0]
    requires r.world == w.(players := w.players[Current(txn).key := Rec(Current(txn).payload.value.inst, None, off)])
             && !r.fate.Forwarded?
    ensures Effect(w, txn, off, r, made)
  {
    CurrentNamed(txn);
    forall j | j in r.world.chars ensures CharacterOk(r.world.chars[j], j, r.world.players) {
      assert CharacterOk(w.chars[j], j, w.players);
    }
    forall pid | pid in w.players ensures ListOf(r.world, pid) == ListOf(w, pid) {}
  }

  lemma LinkEffect(w: World, txn: MTxn, off: CompoundOffset, r: Served, made: string)
    requires InFlight(txn) && Stores(w) && FitsLink(w, Pending(txn)) && Current(txn) == Pending(txn)[0]
    requires r.world == w.(chars := w.chars[Current(txn).key :=
                             Rec(w.chars[Current(txn).key].inst,
                                 Some(CharacterRel(Some(Current(txn).payload.value.payload.inst.p))), off)])
    requires !r.fate.Forwarded?
    ensures Effect(w, txn, off, r, made)
  {
    CurrentNamed(txn);
    var k := Current(txn).key;
    forall j | j in r.world.chars ensures CharacterOk(r.world.chars[j], j, r.world.players) {
      assert CharacterOk(w.chars[j], j, w.players);
    }
    forall j | LinkOf(r.world, j).Some?
      ensures CharacterOk(r.world.chars[j], j, r.world.players)
              && CopyStep(w, r.world, txn, r.fate, j, LinkOf(r.world, j).value)
    {
      assert j != k ==> LinkOf(w, j) == LinkOf(r.world, j);
      assert ListOf(r.world, LinkOf(r.world, j).value) == ListOf(w, LinkOf(r.world, j).value);
    }
  }

  lemma ListsAfter(w: World, pid: string, c: Character, off: CompoundOffset)
    requires Stores(w) && pid in w.players
    ensures var after := WithList(w, pid, Upsert(ListOf(w, pid), c), off);
            && Stores(after) && c in ListOf(after, pid)
            && forall q, d :: d in ListOf(w, q) && d.id != c.id ==> d in ListOf(after, q)
  {
    var after := WithList(w, pid, Upsert(ListOf(w, pid), c), off);
    assert PlayerOk(w.players[pid], pid);
    UpsertOk(ListOf(w, pid), c);
    assert ListOf(after, pid) == Upsert(ListOf(w, pid), c);
    forall q | q != pid ensures ListOf(after, q) == ListOf(w, q) {}
    forall k | k in after.chars ensures CharacterOk(after.chars[k], k, after.players) {
      assert CharacterOk(w.chars[k], k, w.players);
    }
    forall k | k in after.players ensures PlayerOk(after.players[k], k) {
      assert PlayerOk(w.players[k], k);
    }
  }

  lemma RefreshEffect(w: World, txn: MTxn, off: CompoundOffset, r: Served, made: string)
    requires InFlight(txn) && Stores(w) && FitsRefresh(w, Pending(txn)) && Current(txn) == Pending(txn)[0]
    requires r.world == WithList(w, Current(txn).key, Upsert(ListOf(w, Current(txn).key), Copy(Current(txn))), off)
    requires r.fate.Forwarded? ==> InFlight(r.fate.txn) && FitsWork(Pending(r.fate.txn))
                                   && Descends(w, txn, r.fate.txn, made)
    ensures Effect(w, txn, off, r, made)
  {
    CurrentNamed(txn);
    var pid, c := Current(txn).key, Copy(Current(txn));
    ListsAfter(w, pid, c, off);
    if r.fate.Forwarded? {
      CurrentInFlight(r.fate.txn);
      assert Teller(Pending(r.fate.txn)[0]);
    }
    forall j | LinkOf(r.world, j).Some?
      ensures CharacterOk(r.world.chars[j], j, r.world.players)
              && CopyStep(w, r.world, txn, r.fate, j, LinkOf(r.world, j).value)
    {
      assert CharacterOk(r.world.chars[j], j, r.world.players);
      assert LinkOf(w, j) == LinkOf(r.world, j);
    }
  }

  lemma AskEffect(w: World, txn: MTxn, off: CompoundOffset, r: Served, made: string)
    requires InFlight(txn) && Stores(w) && FitsAsk(w, txn) && Current(txn) == Pending(txn)[0]
    requires r.fate.Forwarded? ==> InFlight(r.fate.txn) && Descends(w, txn, r.fate.txn, made)
    requires var pid, c := Current(txn).key, w.chars[Current(txn).payload.value.key].inst.c;
             if pid in w.players then
               r.fate.Forwarded? && r.world == WithList(w, pid, Upsert(ListOf(w, pid), c), off)
                   && FitsLink(r.world, Pending(r.fate.txn))
             else r.world == w && (r.fate.Forwarded? ==> FitsLost(w, Pending(r.fate.txn)))
    ensures Effect(w, txn, off, r, made)
  {
    CurrentNamed(txn);
    if r.fate.Forwarded? { CurrentInFlight(r.fate.txn); }
    var pid, k := Current(txn).key, Current(txn).payload.value.key;
    if pid in w.players {
      var c := w.chars[k].inst.c;
      ListsAfter(w, pid, c, off);
      assert c.id == k && MentionsCharacter(txn, k);
      forall j | LinkOf(r.world, j).Some?
        ensures CharacterOk(r.world.chars[j], j, r.world.players)
                && CopyStep(w, r.world, txn, r.fate, j, LinkOf(r.world, j).value)
      {
        assert CharacterOk(r.world.chars[j], j, r.world.players);
        assert LinkOf(w, j) == LinkOf(r.world, j) && j != k;
      }
    } else {
      NoEffect(w, txn, off, r, made);
    }
  }

  // ---------- the system ----------

  /** The caches and the database, the messages in the order they were produced, and the
      read position of each partition of the PROCESS topics. */
  datatype Game = Game(w: World, stream: seq<MTxn>, position: map<(string, int), nat>)

  datatype Event =
    | Submit(txn: MTxn)
    | Deliver(i: nat, off: CompoundOffset, freshKey: string)
    | CancelWork(i: nat)
    | StorageWrites(db: MDb) // asynchronous updates of items already stored

  function Position(s: Game, concern: string, p: int): nat {
    if (concern, p) in s.position then s.position[(concern, p)] else 0
  }

  /** Both messages are in the same partition of the same topic. */
  predicate SameQueue(a: MStep, b: MStep, hash: string -> int) {
    && a.concern == b.concern && a.system == b.system && !IsKeylessStep(a) && !IsKeylessStep(b)
    && hash(a.key) == hash(b.key)
  }

  /** A key no message, cache or database has seen. */
  ghost predicate Unseen(s: Game, k: string) {
    && k != "" && k !in s.w.chars && k !in s.w.players
    && Lookup(s.w.db, CHARACTER, k).None? && Lookup(s.w.db, PLAYER, k).None?
    && forall i :: 0 <= i < |s.stream| && InRange(s.stream[i]) ==>
                     !MentionsCharacter(s.stream[i], k) && !MentionsPlayer(s.stream[i], k)
  }

  ghost predicate Enabled(s: Game, e: Event, hash: string -> int) {
    match e
    case Submit(txn) =>
      && InFlight(txn) && (FitsWork(Pending(txn)) || FitsNew(Pending(txn)))
      // clients learn a key from the response that ends its creation
      && forall i, k :: 0 <= i < |s.stream| && InRange(s.stream[i]) ==>
           (Making(s.stream[i], k) ==> !MentionsCharacter(txn, k))
               && (MakingPlayer(s.stream[i], k) ==> !MentionsPlayer(txn, k))
    case Deliver(i, off, freshKey) =>
      && i < |s.stream| && InRange(s.stream[i]) && Unseen(s, freshKey)
      && (forall j :: 0 <= j < i && InRange(s.stream[j]) ==>
                        !SameQueue(Current(s.stream[j]), Current(s.stream[i]), hash))
      && var step := Current(s.stream[i]);
         (step.system.Process? && !IsKeylessStep(step) ==>
            off == CompoundOffset(0, hash(step.key), Position(s, step.concern, hash(step.key))))
    case CancelWork(i) => i < |s.stream| && InRange(s.stream[i]) && FitsWork(Pending(s.stream[i]))
    case StorageWrites(db) => forall concern, k :: Lookup(db, concern, k).Some? ==> Lookup(s.w.db, concern, k).Some?
  }

  function Delivered(s: Game, i: nat, off: CompoundOffset, r: Served): Game
    requires i < |s.stream| && InRange(s.stream[i])
    requires Current(s.stream[i]).system.Process? && !IsKeylessStep(Current(s.stream[i])) ==> off.offset >= 0
  {
    var step := Current(s.stream[i]);
    Game(r.world, Without(s.stream, i) + (if r.fate.Forwarded? then [r.fate.txn] else []),
         if step.system.Process?
         && !IsKeylessStep(step) then s.position[(step.concern, off.partition) := off.offset + 1] else s.position)
  }

  function Next(s: Game, e: Event, hash: string -> int): Game
    requires Enabled(s, e, hash)
  {
    match e
    case Submit(txn) => s.(stream := s.stream + [txn])
    case Deliver(i, off, freshKey) => Delivered(s, i, off, Serve(s.w, s.stream[i], off, freshKey))
    case CancelWork(i) => s.(stream := Without(s.stream, i))
    case StorageWrites(db) => s.(w := s.w.(db := db))
  }

  // ---------- the invariant ----------

  ghost predicate WrittenTo(s: Game, store: MStore, concern: string, hash: string -> int) {
    forall k :: k in store ==>
      var o := store[k].cmpdOffset;
      o.generation == 0 && o.partition == hash(k) && o.offset < Position(s, concern, hash(k))
  }

  /** Nobody else names what a message is creating. */
  ghost predicate Apart(a: MTxn, b: MTxn)
    requires InRange(a) && InRange(b)
  {
    && (forall k :: Making(a, k) ==> !MentionsCharacter(b, k))
    && (forall k :: MakingPlayer(a, k) ==> !MentionsPlayer(b, k))
  }

  ghost predicate AllFit(w: World, stream: seq<MTxn>) { forall i :: 0 <= i < |stream| ==> Fits(w, stream[i]) }

  ghost predicate Exclusive(stream: seq<MTxn>)
    requires forall i :: 0 <= i < |stream| ==> InRange(stream[i])
  {
    forall i, j :: 0 <= i < |stream| && 0 <= j < |stream| && i != j ==> Apart(stream[i], stream[j])
  }

  ghost predicate Warm(w: World, stream: seq<MTxn>)
    requires forall i :: 0 <= i < |stream| ==> InRange(stream[i])
  {
    && (forall k :: Lookup(w.db, CHARACTER, k).Some? ==> k in w.chars || exists i ::
                                                           0 <= i < |stream| && Making(stream[i], k))
    && (forall k :: Lookup(w.db, PLAYER, k).Some? ==> k in w.players || exists i ::
                                                        0 <= i < |stream| && MakingPlayer(stream[i], k))
  }

  ghost predicate Inv(s: Game, hash: string -> int) {
    && Stores(s.w) && WrittenTo(s, s.w.chars, CHARACTER, hash) && WrittenTo(s, s.w.players, PLAYER, hash)
    && AllFit(s.w, s.stream) && Exclusive(s.stream) && Warm(s.w, s.stream)
    && forall k :: Agrees(s.w, s.stream, k)
  }

  // ---------- a delivery keeps the invariant ----------

  lemma FitsFrame(w: World, txn: MTxn, off: CompoundOffset, r: Served, made: string, other: MTxn)
    requires InFlight(txn) && Effect(w, txn, off, r, made) && Fits(w, other) && Apart(other, txn)
    requires !MentionsCharacter(other, made) && !MentionsPlayer(other, made)
    ensures Fits(r.world, other)
  {
    CurrentInFlight(other);
    CurrentNamed(other);
    var p := Pending(other);
    if FitsLost(w, p) {
      assert p[0].concern == CHARACTER ==> NamesCharacter(p[0], p[0].key);
      assert p[0].concern == PLAYER ==> NamesPlayer(p[0], p[0].key);
      assert FitsLost(r.world, p);
    } else if FitsCache(w, p) {
      assert Making(other, p[0].key);
      assert FitsCache(r.world, p);
    } else if FitsAsk(w, other) {
      assert Making(other, p[0].payload.value.key);
      assert FitsAsk(r.world, other);
    } else if FitsLink(w, p) {
      assert Making(other, p[0].key);
      assert FitsLink(r.world, p);
    } else if FitsCachePlayer(w, p) {
      assert MakingPlayer(other, p[0].key);
      assert FitsCachePlayer(r.world, p);
    }
  }

  /** Where the messages of the next state come from. */
  lemma StreamAfter(stream: seq<MTxn>, i: nat, more: seq<MTxn>, j: nat)
    requires i < |stream| && j < |Without(stream, i) + more|
    ensures var after := Without(stream, i) + more; var n := |stream| - 1;
            if j < n then after[j] == stream[if j < i then j else j + 1] else after[j] == more[j - n]
  {
  }

  lemma DeliverFits(s: Game, i: nat, off: CompoundOffset, r: Served, made: string)
    requires i < |s.stream| && AllFit(s.w, s.stream) && Exclusive(s.stream) && Unseen(s, made)
    requires Effect(s.w, s.stream[i], off, r, made)
    ensures AllFit(r.world, Without(s.stream, i) + if r.fate.Forwarded? then [r.fate.txn] else [])
  {
    var more := if r.fate.Forwarded? then [r.fate.txn] else [];
    var after := Without(s.stream, i) + more;
    forall j | 0 <= j < |after| ensures Fits(r.world, after[j]) {
      StreamAfter(s.stream, i, more, j);
      if j < |s.stream| - 1 {
        var m := if j < i then j else j + 1;
        assert Apart(s.stream[m], s.stream[i]);
        FitsFrame(s.w, s.stream[i], off, r, made, s.stream[m]);
      }
    }
  }

  lemma NewApart(s: Game, i: nat, t: MTxn, made: string, m: nat)
    requires i < |s.stream| && m < |s.stream| && m != i && AllFit(s.w, s.stream) && Exclusive(s.stream)
             && Unseen(s, made)
    requires InFlight(t) && Descends(s.w, s.stream[i], t, made)
    ensures Apart(t, s.stream[m]) && Apart(s.stream[m], t)
  {
    var other := s.stream[m];
    assert Apart(other, s.stream[i]) && Apart(s.stream[i], other);
    assert !MentionsCharacter(other, made) && !MentionsPlayer(other, made);
    CurrentNamed(other);
    CurrentInFlight(other);
    forall k | MakingPlayer(other, k) ensures k !in s.w.players && k != "" {
      assert FitsCachePlayer(s.w, Pending(other));
    }
    forall k | Making(other, k) ensures k != made {}
  }

  lemma DeliverExclusive(s: Game, i: nat, off: CompoundOffset, r: Served, made: string)
    requires i < |s.stream| && AllFit(s.w, s.stream) && Exclusive(s.stream) && Unseen(s, made)
    requires Effect(s.w, s.stream[i], off, r, made)
    requires AllFit(r.world, Without(s.stream, i) + if r.fate.Forwarded? then [r.fate.txn] else [])
    ensures Exclusive(Without(s.stream, i) + if r.fate.Forwarded? then [r.fate.txn] else [])
  {
    var more := if r.fate.Forwarded? then [r.fate.txn] else [];
    var after, n := Without(s.stream, i) + more, |s.stream| - 1;
    forall a, b | 0 <= a < |after| && 0 <= b < |after| && a != b ensures Apart(after[a], after[b]) {
      StreamAfter(s.stream, i, more, a);
      StreamAfter(s.stream, i, more, b);
      var ma, mb := if a < i then a else a + 1, if b < i then b else b + 1;
      if a < n && b < n {
        assert Apart(s.stream[ma], s.stream[mb]);
      } else if a < n {
        NewApart(s, i, r.fate.txn, made, ma);
      } else {
        NewApart(s, i, r.fate.txn, made, mb);
      }
    }
  }

  lemma KeptMaker(stream: seq<MTxn>, i: nat, more: seq<MTxn>, m: nat)
    requires i < |stream| && m < |stream| && m != i
    ensures var j := if m < i then m else m - 1;
            j < |Without(stream, i) + more| && (Without(stream, i) + more)[j] == stream[m]
  {
  }

  lemma DeliverWarm(s: Game, i: nat, off: CompoundOffset, r: Served, made: string)
    requires i < |s.stream| && AllFit(s.w, s.stream) && Warm(s.w, s.stream)
    requires Effect(s.w, s.stream[i], off, r, made)
    requires AllFit(r.world, Without(s.stream, i) + if r.fate.Forwarded? then [r.fate.txn] else [])
    ensures Warm(r.world, Without(s.stream, i) + if r.fate.Forwarded? then [r.fate.txn] else [])
  {
    var more := if r.fate.Forwarded? then [r.fate.txn] else [];
    var after, n := Without(s.stream, i) + more, |s.stream| - 1;
    assert more != [] ==> after[n] == r.fate.txn;
    forall k | Lookup(r.world.db, CHARACTER, k).Some? && k !in r.world.chars
      ensures exists j :: 0 <= j < |after| && Making(after[j], k) {
      if Lookup(s.w.db, CHARACTER, k).Some? {
        var m :| 0 <= m < |s.stream| && Making(s.stream[m], k);
        KeptMaker(s.stream, i, more, m);
      } else {
        assert Making(after[n], k);
      }
    }
    forall k | Lookup(r.world.db, PLAYER, k).Some? && k !in r.world.players
      ensures exists j :: 0 <= j < |after| && MakingPlayer(after[j], k) {
      if Lookup(s.w.db, PLAYER, k).Some? {
        var m :| 0 <= m < |s.stream| && MakingPlayer(s.stream[m], k);
        KeptMaker(s.stream, i, more, m);
      } else {
        assert MakingPlayer(after[n], k);
      }
    }
  }

  lemma NobodyRefreshes(s: Game, i: nat, pid: string, k: string)
    requires i < |s.stream| && AllFit(s.w, s.stream) && Exclusive(s.stream) && Making(s.stream[i], k)
    ensures Latest(Without(s.stream, i), pid, k).None?
  {
    var rest := Without(s.stream, i);
    assert rest + [] == rest;
    forall j | 0 <= j < |rest| ensures !RefreshFor(rest[j], pid, k) {
      StreamAfter(s.stream, i, [], j);
      var m := if j < i then j else j + 1;
      assert Apart(s.stream[i], s.stream[m]);
      CurrentNamed(s.stream[m]);
    }
    LatestNone(rest, pid, k);
  }

  lemma OldestRefresh(s: Game, i: nat, pid: string, k: string, hash: string -> int)
    requires i < |s.stream| && AllFit(s.w, s.stream) && RefreshFor(s.stream[i], pid, k)
    requires forall j :: 0 <= j < i ==> !SameQueue(Current(s.stream[j]), Current(s.stream[i]), hash)
    ensures Latest(s.stream, pid, k).Some?
    ensures Latest(Without(s.stream, i), pid, k) == Latest(s.stream, pid, k)
            || (Latest(Without(s.stream, i), pid, k).None?
                && Latest(s.stream, pid, k) == Some(Copy(Current(s.stream[i]))))
  {
    forall j | 0 <= j < i ensures !RefreshFor(s.stream[j], pid, k) {
      assert !SameQueue(Current(s.stream[j]), Current(s.stream[i]), hash);
    }
    LatestFirst(s.stream, i, pid, k);
  }

  lemma DeliverAgrees(s: Game, i: nat, off: CompoundOffset, r: Served, made: string, hash: string -> int, k: string)
    requires i < |s.stream| && AllFit(s.w, s.stream) && Exclusive(s.stream) && Agrees(s.w, s.stream, k)
    requires Effect(s.w, s.stream[i], off, r, made)
    requires forall j :: 0 <= j < i ==> !SameQueue(Current(s.stream[j]), Current(s.stream[i]), hash)
    ensures Agrees(r.world, Without(s.stream, i) + (if r.fate.Forwarded? then [r.fate.txn] else []), k)
  {
    if LinkOf(r.world, k).Some? {
      var pid, txn := LinkOf(r.world, k).value, s.stream[i];
      assert CharacterOk(r.world.chars[k], k, r.world.players) && CopyStep(s.w, r.world, txn, r.fate, k, pid);
      var rest := Without(s.stream, i);
      if r.fate.Forwarded? {
        LatestAppend(rest, r.fate.txn, pid, k);
      } else {
        assert rest + [] == rest;
      }
      if r.fate.Forwarded? && RefreshFor(r.fate.txn, pid, k) {
      } else if LinkOf(s.w, k) == Some(pid) && s.w.chars[k].inst == r.world.chars[k].inst {
        if RefreshFor(txn, pid, k) {
          OldestRefresh(s, i, pid, k, hash);
        } else {
          LatestWithout(s.stream, i, pid, k);
        }
      } else {
        NobodyRefreshes(s, i, pid, k);
      }
    }
  }

  lemma DeliverWritten(s: Game, i: nat, off: CompoundOffset, r: Served, hash: string -> int)
    requires i < |s.stream| && InFlight(s.stream[i])
    requires WrittenTo(s, s.w.chars, CHARACTER, hash) && WrittenTo(s, s.w.players, PLAYER, hash)
             && CacheEffect(s.w, r.world, s.stream[i], off)
    requires var step := Current(s.stream[i]);
             step.system.Process? && !IsKeylessStep(step) ==>
                   off == CompoundOffset(0, hash(step.key), Position(s, step.concern, hash(step.key)))
    requires IsKeylessStep(Current(s.stream[i])) ==> Current(s.stream[i]).key == ""
    ensures var t := Delivered(s, i, off, r);
            WrittenTo(t, t.w.chars, CHARACTER, hash) && WrittenTo(t, t.w.players, PLAYER, hash)
  {
  }

  // ---------- every message fits, so every visit has its effect ----------

  lemma WarmCharacter(s: Game, i: nat)
    requires i < |s.stream| && AllFit(s.w, s.stream) && Exclusive(s.stream) && Warm(s.w, s.stream)
    requires Teller(Current(s.stream[i])) && Current(s.stream[i]).key !in s.w.chars
    ensures Lookup(s.w.db, CHARACTER, Current(s.stream[i]).key).None?
  {
    var k := Current(s.stream[i]).key;
    CurrentNamed(s.stream[i]);
    forall m | 0 <= m < |s.stream| ensures !Making(s.stream[m], k) {
      assert m != i ==> Apart(s.stream[m], s.stream[i]);
    }
  }

  lemma WarmPlayer(s: Game, i: nat)
    requires i < |s.stream| && AllFit(s.w, s.stream) && Exclusive(s.stream) && Warm(s.w, s.stream)
    requires Current(s.stream[i]).concern == PLAYER && Current(s.stream[i]).command.RequestRelated?
    requires Current(s.stream[i]).key != "" && Current(s.stream[i]).key !in s.w.players
    ensures Lookup(s.w.db, PLAYER, Current(s.stream[i]).key).None?
  {
    var k := Current(s.stream[i]).key;
    CurrentNamed(s.stream[i]);
    forall m | 0 <= m < |s.stream| ensures !MakingPlayer(s.stream[m], k) {
      assert m != i ==> Apart(s.stream[m], s.stream[i]);
    }
  }

  lemma CharacterVisit(s: Game, i: nat, off: CompoundOffset, freshKey: string, hash: string -> int)
    requires Inv(s, hash) && Enabled(s, Deliver(i, off, freshKey), hash)
    requires FitsWork(Pending(s.stream[i])) || FitsLink(s.w, Pending(s.stream[i]))
             || FitsCache(s.w, Pending(s.stream[i]))
    ensures Effect(s.w, s.stream[i], off, Serve(s.w, s.stream[i], off, freshKey), freshKey)
  {
    var w, txn := s.w, s.stream[i];
    CurrentInFlight(txn);
    var p := Pending(txn);
    if FitsWork(p) {
      assert Teller(p[0]);
      if p[0].key !in w.chars { WarmCharacter(s, i); }
      VisitWork(w, txn, off, freshKey);
      WorkEffect(w, txn, off, Serve(w, txn, off, freshKey), freshKey);
    } else if FitsLink(w, p) {
      VisitLink(w, txn, off, freshKey);
      LinkEffect(w, txn, off, Serve(w, txn, off, freshKey), freshKey);
    } else {
      VisitCache(w, txn, off, freshKey);
      CacheEffectOf(w, txn, off, Serve(w, txn, off, freshKey), freshKey);
    }
  }

  lemma PlayerVisit(s: Game, i: nat, off: CompoundOffset, freshKey: string, hash: string -> int)
    requires Inv(s, hash) && Enabled(s, Deliver(i, off, freshKey), hash)
    requires FitsRefresh(s.w, Pending(s.stream[i])) || FitsAsk(s.w, s.stream[i])
             || FitsCachePlayer(s.w, Pending(s.stream[i]))
    ensures Effect(s.w, s.stream[i], off, Serve(s.w, s.stream[i], off, freshKey), freshKey)
  {
    var w, txn := s.w, s.stream[i];
    CurrentInFlight(txn);
    if FitsRefresh(w, Pending(txn)) {
      VisitRefresh(w, txn, off, freshKey);
      RefreshEffect(w, txn, off, Serve(w, txn, off, freshKey), freshKey);
    } else if FitsAsk(w, txn) {
      var pid := Current(txn).key;
      if pid == "" {
        assert Lookup(w.db, PLAYER, "").None?;
      } else if pid !in w.players {
        WarmPlayer(s, i);
      }
      VisitAsk(w, txn, off, freshKey);
      AskEffect(w, txn, off, Serve(w, txn, off, freshKey), freshKey);
    } else {
      VisitCachePlayer(w, txn, off, freshKey);
      CachePlayerEffect(w, txn, off, Serve(w, txn, off, freshKey), freshKey);
    }
  }

  lemma StorageVisit(s: Game, i: nat, off: CompoundOffset, freshKey: string, hash: string -> int)
    requires Inv(s, hash) && Enabled(s, Deliver(i, off, freshKey), hash)
    requires FitsLost(s.w, Pending(s.stream[i])) || FitsNew(Pending(s.stream[i])) || FitsStore(Pending(s.stream[i]))
    ensures Effect(s.w, s.stream[i], off, Serve(s.w, s.stream[i], off, freshKey), freshKey)
  {
    var w, txn := s.w, s.stream[i];
    CurrentInFlight(txn);
    if FitsLost(w, Pending(txn)) {
      VisitLost(w, txn, off, freshKey);
      LostEffect(w, txn, off, Serve(w, txn, off, freshKey), freshKey);
    } else if FitsNew(Pending(txn)) {
      VisitNew(w, txn, off, freshKey);
      NewEffect(w, txn, off, Serve(w, txn, off, freshKey), freshKey);
    } else {
      VisitStore(w, txn, off, freshKey);
      StoreEffectOf(w, txn, off, Serve(w, txn, off, freshKey), freshKey,
                    WithKey(Current(txn).payload.value.inst, freshKey), Current(txn).cmpdOffset.value);
    }
  }

  lemma VisitEffect(s: Game, i: nat, off: CompoundOffset, freshKey: string, hash: string -> int)
    requires Inv(s, hash) && Enabled(s, Deliver(i, off, freshKey), hash)
    ensures Effect(s.w, s.stream[i], off, Serve(s.w, s.stream[i], off, freshKey), freshKey)
  {
    var w, txn := s.w, s.stream[i];
    var p := Pending(txn);
    assert Fits(w, txn);
    if FitsWork(p) || FitsLink(w, p) || FitsCache(w, p) {
      CharacterVisit(s, i, off, freshKey, hash);
    } else if FitsRefresh(w, p) || FitsAsk(w, txn) || FitsCachePlayer(w, p) {
      PlayerVisit(s, i, off, freshKey, hash);
    } else {
      StorageVisit(s, i, off, freshKey, hash);
    }
  }

  lemma DeliverKeeps(s: Game, i: nat, off: CompoundOffset, freshKey: string, r: Served, hash: string -> int)
    requires Inv(s, hash) && Enabled(s, Deliver(i, off, freshKey), hash) && Effect(s.w, s.stream[i], off, r, freshKey)
    ensures Inv(Delivered(s, i, off, r), hash)
  {
    DeliverFits(s, i, off, r, freshKey);
    DeliverExclusive(s, i, off, r, freshKey);
    DeliverWarm(s, i, off, r, freshKey);
    var t := Delivered(s, i, off, r);
    forall k ensures Agrees(t.w, t.stream, k) {
      DeliverAgrees(s, i, off, r, freshKey, hash, k);
    }
    CurrentInFlight(s.stream[i]);
    DeliverWritten(s, i, off, r, hash);
  }

  lemma SubmitKeeps(s: Game, txn: MTxn, hash: string -> int)
    requires Inv(s, hash) && Enabled(s, Submit(txn), hash)
    ensures Inv(s.(stream := s.stream + [txn]), hash)
  {
    CurrentInFlight(txn);
    assert FitsWork(Pending(txn)) ==> Teller(Pending(txn)[0]);
    assert Fits(s.w, txn);
    SubmitExclusive(s, txn);
    SubmitWarm(s, txn);
    forall k ensures Agrees(s.w, s.stream + [txn], k) {
      assert Agrees(s.w, s.stream, k);
      if LinkOf(s.w, k).Some? { LatestAppend(s.stream, txn, LinkOf(s.w, k).value, k); }
    }
  }

  lemma SubmitExclusive(s: Game, txn: MTxn)
    requires AllFit(s.w, s.stream) && Exclusive(s.stream) && InFlight(txn)
    requires forall i :: 0 <= i < |s.stream| ==> Apart(s.stream[i], txn)
    requires forall k :: !Making(txn, k) && !MakingPlayer(txn, k)
    ensures Exclusive(s.stream + [txn])
  {
    var t := s.stream + [txn];
    forall a, b | 0 <= a < |t| && 0 <= b < |t| && a != b ensures Apart(t[a], t[b]) {
      if a < |s.stream| && b < |s.stream| {
        assert Apart(s.stream[a], s.stream[b]);
      } else if a < |s.stream| {
        assert Apart(s.stream[a], txn);
      }
    }
  }

  lemma SubmitWarm(s: Game, txn: MTxn)
    requires AllFit(s.w, s.stream) && Warm(s.w, s.stream) && InFlight(txn)
    ensures Warm(s.w, s.stream + [txn])
  {
    var after := s.stream + [txn];
    forall k | Lookup(s.w.db, CHARACTER, k).Some? && k !in s.w.chars
      ensures exists j :: 0 <= j < |after| && Making(after[j], k) {
      var m :| 0 <= m < |s.stream| && Making(s.stream[m], k);
      assert after[m] == s.stream[m];
    }
    forall k | Lookup(s.w.db, PLAYER, k).Some? && k !in s.w.players
      ensures exists j :: 0 <= j < |after| && MakingPlayer(after[j], k) {
      var m :| 0 <= m < |s.stream| && MakingPlayer(s.stream[m], k);
      assert after[m] == s.stream[m];
    }
  }

  lemma CancelKeeps(s: Game, i: nat, hash: string -> int)
    requires Inv(s, hash) && Enabled(s, CancelWork(i), hash)
    ensures Inv(s.(stream := Without(s.stream, i)), hash)
  {
    CurrentInFlight(s.stream[i]);
    assert Teller(Pending(s.stream[i])[0]);
    var after := Without(s.stream, i);
    assert after + [] == after;
    forall j | 0 <= j < |after| ensures Fits(s.w, after[j]) {
      StreamAfter(s.stream, i, [], j);
    }
    forall a, b | 0 <= a < |after| && 0 <= b < |after| && a != b ensures Apart(after[a], after[b]) {
      StreamAfter(s.stream, i, [], a);
      StreamAfter(s.stream, i, [], b);
      assert Apart(s.stream[if a < i then a else a + 1], s.stream[if b < i then b else b + 1]);
    }
    CancelWarm(s, i);
    forall k ensures Agrees(s.w, after, k) {
      assert Agrees(s.w, s.stream, k);
      if LinkOf(s.w, k).Some? { LatestWithout(s.stream, i, LinkOf(s.w, k).value, k); }
    }
  }

  lemma CancelWarm(s: Game, i: nat)
    requires i < |s.stream| && AllFit(s.w, s.stream) && Warm(s.w, s.stream) && Teller(Current(s.stream[i]))
    requires AllFit(s.w, Without(s.stream, i))
    ensures Warm(s.w, Without(s.stream, i))
  {
    var after := Without(s.stream, i);
    assert after + [] == after;
    forall k | Lookup(s.w.db, CHARACTER, k).Some? && k !in s.w.chars
      ensures exists j :: 0 <= j < |after| && Making(after[j], k) {
      var m :| 0 <= m < |s.stream| && Making(s.stream[m], k);
      KeptMaker(s.stream, i, [], m);
    }
    forall k | Lookup(s.w.db, PLAYER, k).Some? && k !in s.w.players
      ensures exists j :: 0 <= j < |after| && MakingPlayer(after[j], k) {
      var m :| 0 <= m < |s.stream| && MakingPlayer(s.stream[m], k);
      KeptMaker(s.stream, i, [], m);
    }
  }

  lemma StorageKeeps(s: Game, db: MDb, hash: string -> int)
    requires Inv(s, hash) && Enabled(s, StorageWrites(db), hash)
    ensures Inv(s.(w := s.w.(db := db)), hash)
  {
    var t := s.(w := s.w.(db := db));
    forall i | 0 <= i < |t.stream| ensures Fits(t.w, t.stream[i]) {
      assert Fits(s.w, s.stream[i]);
    }
    forall k ensures Agrees(t.w, t.stream, k) {
      assert Agrees(s.w, s.stream, k);
    }
  }

  // ---------- runs ----------

  lemma NextKeeps(s: Game, e: Event, hash: string -> int)
    requires Inv(s, hash) && Enabled(s, e, hash)
    ensures Inv(Next(s, e, hash), hash)
  {
    match e
    case Submit(txn) => SubmitKeeps(s, txn, hash);
    case Deliver(i, off, freshKey) =>
      VisitEffect(s, i, off, freshKey, hash);
      DeliverKeeps(s, i, off, freshKey, Serve(s.w, s.stream[i], off, freshKey), hash);
    case CancelWork(i) => CancelKeeps(s, i, hash);
    case StorageWrites(db) => StorageKeeps(s, db, hash);
  }

  function Start(): Game { Game(World(map[], map[], map[]), [], map[]) }

  ghost predicate IsHistory(states: seq<Game>, events: seq<Event>, hash: string -> int) {
    && |states| == |events| + 1 && states[0] == Start()
    && forall i :: 0 <= i < |events| ==> Enabled(states[i], events[i], hash)
                                         && states[i + 1] == Next(states[i], events[i], hash)
  }

  lemma {:induction false} HistoryKeeps(states: seq<Game>, events: seq<Event>, hash: string -> int, n: nat)
    requires IsHistory(states, events, hash) && n < |states|
    ensures Inv(states[n], hash)
    decreases n
  {
    if n > 0 {
      var i := n - 1;
      HistoryKeeps(states, events, hash, i);
      assert Enabled(states[i], events[i], hash) && states[i + 1] == Next(states[i], events[i], hash);
      NextKeeps(states[i], events[i], hash);
    }
  }

  /** How often a character is on a list. */
  function Occurrences(list: seq<Character>, k: string): nat {
    if list == [] then 0 else (if list[0].id == k then 1 else 0) + Occurrences(list[1..], k)
  }

  lemma {:induction false} DistinctOnce(list: seq<Character>, c: Character)
    requires Distinct(list)
    ensures Occurrences(list, c.id) <= 1
    ensures c in list ==> Occurrences(list, c.id) == 1
    ensures (forall i :: 0 <= i < |list| ==> list[i].id != c.id) ==> Occurrences(list, c.id) == 0
  {
    if list != [] {
      DistinctOnce(list[1..], c);
    }
  }

  /** In every state of every run, a character linked to a player, with no refresh of it on
      its way there, is on that player's list exactly once, with its current instance. With
      refreshes on their way, the last of them carries the current instance. */
  lemma CopiesAgree(states: seq<Game>, events: seq<Event>, hash: string -> int, n: nat, k: string)
    requires IsHistory(states, events, hash) && n < |states|
    requires LinkOf(states[n].w, k).Some?
    ensures var w, pid := states[n].w, LinkOf(states[n].w, k).value;
            && pid in w.players && w.chars[k].inst.CharacterInst? && w.chars[k].inst.c.id == k
            && match Latest(states[n].stream, pid, k)
               case Some(copy) => copy == w.chars[k].inst.c
               case None => w.chars[k].inst.c in ListOf(w, pid) && Occurrences(ListOf(w, pid), k) == 1
  {
    HistoryKeeps(states, events, hash, n);
    var w, pid := states[n].w, LinkOf(states[n].w, k).value;
    assert CharacterOk(w.chars[k], k, w.players) && PlayerOk(w.players[pid], pid);
    assert Agrees(w, states[n].stream, k);
    DistinctOnce(ListOf(w, pid), w.chars[k].inst.c);
  }

  /** In particular whenever nothing is in flight, as between the transactions of a serial
      run, whether they succeeded or not. */
  lemma QuiescentCopiesAgree(states: seq<Game>, events: seq<Event>, hash: string -> int, n: nat, k: string)
    requires IsHistory(states, events, hash) && n < |states| && states[n].stream == []
    requires LinkOf(states[n].w, k).Some?
    ensures var w, pid := states[n].w, LinkOf(states[n].w, k).value;
            pid in w.players && w.chars[k].inst.CharacterInst? && w.chars[k].inst.c in ListOf(w, pid)
                && Occurrences(ListOf(w, pid), k) == 1
  {
    CopiesAgree(states, events, hash, n, k);
  }
}
