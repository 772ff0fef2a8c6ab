/**
 The read/commit/bailout loop of a storage consumer (consumeApecsTopic in
 pkg/apecs/apecs_runner.go), over a log of storage operations.

 The consumer may crash, bail out, shut down and restart at any point and any number of
 times; every restart resumes at the committed offset, so messages are handled at least
 once. `ExactlyOnce` states that the database nevertheless is the one given by a single
 in-order pass of the log whenever the consumer stands at its highest handled offset.
 */
module StorageConsumers {
  import opened RamDbs

  datatype Event =
    | CommitTick                           // the five second ticker
    | Deliver                              // one message read and handled
    | Bailout(landed: bool, saved: bool)   // handling reports failure; the write may have landed, the commit may fail
    | Shutdown(saved: bool)                // context done: the deferred commit may fail
    | Crash                                // the process dies

  datatype State<I, R> = State(
    db: Contents<I, R>,
    pos: nat,              // offset of the next message to read
    committed: nat,        // offset stored on the broker
    stored: nat,           // offset in the local offset store
    shouldCommit: bool,
    firstMessage: bool,
    highest: nat           // one past the highest offset ever handled
  )

  function Initial<I, R>(): State<I, R> {
    State(map[], 0, 0, 0, false, true, 0)
  }

  /** A new consumer process: assigned at the committed offset, with fresh locals. */
  function Restart<I, R>(s: State<I, R>): State<I, R> {
    s.(pos := s.committed, stored := s.committed, shouldCommit := false, firstMessage := true)
  }

  function Max(a: nat, b: nat): nat { if a >= b then a else b }

  /** The initial commit to the current offset, made once per process. */
  function InitialCommit<I, R>(s: State<I, R>): State<I, R> {
    if s.firstMessage then s.(firstMessage := false, committed := s.pos) else s
  }

  function Handled<I, R>(s: State<I, R>, log: seq<Op<I, R>>): State<I, R>
    requires s.pos < |log|
  {
    s.(db := Apply(s.db, log[s.pos]), highest := Max(s.highest, s.pos + 1))
  }

  function Next<I, R>(s: State<I, R>, log: seq<Op<I, R>>, e: Event): State<I, R> {
    match e
    case CommitTick =>
      if s.shouldCommit then s.(committed := s.stored, shouldCommit := false) else s
    case Deliver =>
      if s.pos >= |log| then s // nothing to read before the timeout
      else
        var t := Handled(InitialCommit(s), log);
        t.(pos := s.pos + 1, stored := s.pos + 1, shouldCommit := true)
    case Bailout(landed, saved) =>
      if s.pos >= |log| then s
      else
        var t := InitialCommit(s);
        var u := if landed then Handled(t, log) else t;
        Restart(if saved then u.(committed := s.pos) else u)
    case Shutdown(saved) =>
      Restart(if s.shouldCommit && saved then s.(committed := s.stored) else s)
    case Crash => Restart(s)
  }

  function Exec<I, R>(s: State<I, R>, log: seq<Op<I, R>>, es: seq<Event>): State<I, R>
    decreases |es|
  {
    if es == [] then s else Exec(Next(s, log, es[0]), log, es[1..])
  }

  ghost predicate Inv<I, R>(s: State<I, R>, log: seq<Op<I, R>>) {
    && s.committed <= s.pos <= s.highest <= |log|
    && (s.shouldCommit ==> s.stored == s.pos)
    // replaying what was not committed changes nothing ...
    && Run(s.db, log[s.committed..s.pos]) == s.db
    // ... and catching up gives what one pass over everything handled gives
    && Run(s.db, log[s.pos..s.highest]) == Run(map[], log[..s.highest])
  }

  lemma RunOne<I, R>(db: Contents<I, R>, op: Op<I, R>)
    ensures Run(db, [op]) == Apply(db, op)
  {
    assert Run(db, [op]) == Run(Apply(db, op), [op][1..]);
  }

  /** Handling the next message, seen as one more operation after both log segments. */
  lemma HandledKeeps<I, R>(s: State<I, R>, log: seq<Op<I, R>>)
    requires Inv(s, log) && s.pos < |log|
    ensures var db := Apply(s.db, log[s.pos]); var h := Max(s.highest, s.pos + 1);
            && Run(db, log[s.committed..s.pos + 1]) == db
            && Run(db, log[s.pos + 1..h]) == Run(map[], log[..h])
  {
    var p, h := s.pos, Max(s.highest, s.pos + 1);
    var db := Apply(s.db, log[p]);
    assert log[s.committed..p + 1] == log[s.committed..p] + [log[p]];
    RunAppend(s.db, log[s.committed..p], [log[p]]);
    RunOne(s.db, log[p]);
    RunIdempotent(s.db, log[s.committed..p + 1]);
    if p == s.highest {
      assert log[p..s.highest] == [] && log[p + 1..h] == [];
      assert log[..h] == log[..p] + [log[p]];
      RunAppend(map[], log[..p], [log[p]]);
    } else {
      assert log[p..h] == [log[p]] + log[p + 1..h];
      RunAppend(s.db, [log[p]], log[p + 1..h]);
    }
  }

  /** Going back to the committed offset loses nothing. */
  lemma RewindKeeps<I, R>(db: Contents<I, R>, log: seq<Op<I, R>>, committed: nat, pos: nat, highest: nat)
    requires committed <= pos <= highest <= |log|
    requires Run(db, log[committed..pos]) == db
    requires Run(db, log[pos..highest]) == Run(map[], log[..highest])
    ensures Run(db, log[committed..highest]) == Run(map[], log[..highest])
  {
    assert log[committed..highest] == log[committed..pos] + log[pos..highest];
    RunAppend(db, log[committed..pos], log[pos..highest]);
  }

  lemma InitialCommitKeeps<I, R>(s: State<I, R>, log: seq<Op<I, R>>)
    requires Inv(s, log)
    ensures Inv(InitialCommit(s), log)
  {
    assert log[s.pos..s.pos] == [];
  }

  lemma RestartKeeps<I, R>(s: State<I, R>, log: seq<Op<I, R>>)
    requires Inv(s, log)
    ensures Inv(Restart(s), log)
  {
    assert log[s.committed..s.committed] == [];
    RewindKeeps(s.db, log, s.committed, s.pos, s.highest);
  }

  lemma CommitKeeps<I, R>(s: State<I, R>, log: seq<Op<I, R>>)
    requires Inv(s, log)
    ensures Inv(s.(committed := s.pos), log)
  {
    assert log[s.pos..s.pos] == [];
  }

  lemma DeliverKeeps<I, R>(s: State<I, R>, log: seq<Op<I, R>>)
    requires Inv(s, log)
    ensures Inv(Next(s, log, Deliver), log)
  {
    if s.pos < |log| {
      InitialCommitKeeps(s, log);
      HandledKeeps(InitialCommit(s), log);
    }
  }

  lemma BailoutKeeps<I, R>(s: State<I, R>, log: seq<Op<I, R>>, landed: bool, saved: bool)
    requires Inv(s, log)
    ensures Inv(Next(s, log, Bailout(landed, saved)), log)
  {
    if s.pos < |log| {
      InitialCommitKeeps(s, log);
      var t := InitialCommit(s);
      CommitKeeps(t, log);
      var u := if saved then t.(committed := t.pos) else t;
      if landed {
        LandedKeeps(u, log);
      } else {
        RestartKeeps(u, log);
      }
    }
  }

  /** A landed write is a delivery whose advance of the position is lost. */
  lemma LandedKeeps<I, R>(u: State<I, R>, log: seq<Op<I, R>>)
    requires Inv(u, log) && u.pos < |log|
    ensures Inv(Restart(Handled(u, log)), log)
  {
    HandledKeeps(u, log);
    var v := Handled(u, log).(pos := u.pos + 1, shouldCommit := false);
    RestartKeeps(v, log);
    assert Restart(v) == Restart(Handled(u, log));
  }

  lemma NextKeepsInv<I, R>(s: State<I, R>, log: seq<Op<I, R>>, e: Event)
    requires Inv(s, log)
    ensures Inv(Next(s, log, e), log)
  {
    CommitKeeps(s, log);
    match e
    case CommitTick =>
    case Deliver => DeliverKeeps(s, log);
    case Bailout(landed, saved) => BailoutKeeps(s, log, landed, saved);
    case Shutdown(saved) =>
      RestartKeeps(if s.shouldCommit && saved then s.(committed := s.stored) else s, log);
    case Crash => RestartKeeps(s, log);
  }

  lemma {:induction false} ExecKeepsInv<I, R>(s: State<I, R>, log: seq<Op<I, R>>, es: seq<Event>)
    requires Inv(s, log)
    ensures Inv(Exec(s, log, es), log)
    decreases |es|
  {
    if es != [] {
      NextKeepsInv(s, log, es[0]);
      ExecKeepsInv(Next(s, log, es[0]), log, es[1..]);
    }
  }

  /** At-least-once delivery acts like exactly-once: after any schedule of reads, ticker
      commits, bailouts, shutdowns and crashes, handling the remaining part of what was
      already handled gives the database of one in-order pass; in particular the database
      is that one whenever the consumer has caught up with its highest handled offset. */
  lemma ExactlyOnce<I, R>(log: seq<Op<I, R>>, es: seq<Event>)
    ensures var s := Exec(Initial<I, R>(), log, es);
            && s.pos <= s.highest <= |log|
            && Run(s.db, log[s.pos..s.highest]) == Run(map[], log[..s.highest])
            && (s.pos == s.highest ==> s.db == Run(map[], log[..s.highest]))
  {
    ExecKeepsInv(Initial<I, R>(), log, es);
    var s := Exec(Initial<I, R>(), log, es);
    if s.pos == s.highest {
      assert log[s.pos..s.highest] == [];
    }
  }

  // ---------- the loop itself ----------

  class Consumer<I(==), R(==)> {
    const log: seq<Op<I, R>>
    const db: RamDb<I, R>
    var pos: nat
    var committed: nat
    var stored: nat
    var shouldCommit: bool
    var firstMessage: bool
    ghost var highest: nat

    ghost function Value(): State<I, R>
      reads this, db
    {
      State(db.concerns, pos, committed, stored, shouldCommit, firstMessage, highest)
    }

    constructor (log: seq<Op<I, R>>, db: RamDb<I, R>)
      requires db.concerns == map[]
      ensures this.log == log && this.db == db && Value() == Initial()
    {
      this.log := log;
      this.db := db;
      pos, committed, stored := 0, 0, 0;
      shouldCommit, firstMessage := false, true;
      highest := 0;
    }

    method Commit()
      requires shouldCommit
      modifies this
      ensures Value() == old(Value()).(committed := old(stored), shouldCommit := false)
    {
      committed := stored;
      shouldCommit := false;
    }

    method HandleCommand(op: Op<I, R>)
      requires pos < |log| && op == log[pos]
      modifies this`highest, db
      ensures Value() == Handled(old(Value()), log)
    {
      match op {
        case Put(concern, key, inst, rel, off) => db.Update(concern, key, inst, rel, off);
        case Del(concern, key, off) => db.Delete(concern, key, off);
        case Skip =>
      }
      highest := Max(highest, pos + 1);
    }

    method Reassign()
      modifies this
      ensures Value() == Restart(old(Value()))
    {
      pos, stored := committed, committed;
      shouldCommit, firstMessage := false, true;
    }

    method Step(e: Event)
      modifies this, db
      ensures Value() == Next(old(Value()), log, e)
    {
      match e {
        case CommitTick =>
          if shouldCommit { Commit(); }
        case Deliver =>
          if pos < |log| {
            if firstMessage {
              firstMessage := false;
              committed := pos;
            }
            HandleCommand(log[pos]);
            stored := pos + 1;
            pos := pos + 1;
            shouldCommit := true;
          }
        case Bailout(landed, saved) =>
          if pos < |log| {
            if firstMessage {
              firstMessage := false;
              committed := pos;
            }
            if landed { HandleCommand(log[pos]); }
            if saved { committed := pos; }
            Reassign();
          }
        case Shutdown(saved) =>
          if shouldCommit && saved { Commit(); }
          Reassign();
        case Crash =>
          Reassign();
      }
    }

    /** The whole life of the consumer group under an arbitrary schedule. */
    method Consume(schedule: seq<Event>)
      requires Value() == Initial()
      modifies this, db
      ensures Value() == Exec(old(Value()), log, schedule)
      ensures pos <= highest <= |log|
      ensures pos == highest ==> db.concerns == Run(map[], log[..highest])
    {
      ghost var goal := Exec(Value(), log, schedule);
      assert schedule[0..] == schedule;
      for i := 0 to |schedule|
        invariant Inv(Value(), log) && Exec(Value(), log, schedule[i..]) == goal
      {
        NextKeepsInv(Value(), log, schedule[i]);
        assert schedule[i..][0] == schedule[i] && schedule[i..][1..] == schedule[i + 1..];
        Step(schedule[i]);
      }
      assert schedule[|schedule|..] == [];
      assert pos == highest ==> log[pos..highest] == [];
    }
  }
}
