/**
 The in-memory database (pkg/storage/ramdb/ramdb.go): one item map per concern, each
 item guarded by the offset of the PROCESS message that produced it.

 The result is that a whole sequence of guarded operations is idempotent, whatever the
 order of its offsets: as a function of one cell, any sequence is "below a threshold the
 constant c, from the threshold on the identity", with c itself not above the threshold.
 */
module RamDbs {
  import opened Wrappers
  import opened Offsets

  datatype Item<I, R> = Item(inst: I, rel: Option<R>, cmpdOffset: CompoundOffset)

  type Items<I, R> = map<string, Item<I, R>>
  type Contents<I, R> = map<string, Items<I, R>>

  // ---------- operations on values ----------

  function Lookup<I, R>(db: Contents<I, R>, concern: string, key: string): Option<Item<I, R>> {
    if concern in db && key in db[concern] then Some(db[concern][key]) else None
  }

  function Write<I, R>(db: Contents<I, R>, concern: string, key: string, inst: I, rel: Option<R>,
                       off: CompoundOffset): Contents<I, R>
  {
    var items := if concern in db then db[concern] else map[];
    if key in items && !OffsetGT(off, items[key].cmpdOffset)
    then db[concern := items]
    else db[concern := items[key := Item(inst, rel, off)]]
  }

  function Erase<I, R>(db: Contents<I, R>, concern: string, key: string, off: CompoundOffset): Contents<I, R> {
    if concern !in db then db
    else if key in db[concern] && !OffsetGT(off, db[concern][key].cmpdOffset) then db
    else db[concern := db[concern] - {key}]
  }

  /** One logged storage operation; `Skip` is a message with no storage effect. */
  datatype Op<I, R> =
    | Put(concern: string, key: string, inst: I, rel: Option<R>, off: CompoundOffset)
    | Del(concern: string, key: string, off: CompoundOffset)
    | Skip

  function Apply<I, R>(db: Contents<I, R>, op: Op<I, R>): Contents<I, R> {
    match op
    case Put(concern, key, inst, rel, off) => Write(db, concern, key, inst, rel, off)
    case Del(concern, key, off) => Erase(db, concern, key, off)
    case Skip => db
  }

  function Run<I, R>(db: Contents<I, R>, ops: seq<Op<I, R>>): Contents<I, R>
    decreases |ops|
  {
    if ops == [] then db else Run(Apply(db, ops[0]), ops[1..])
  }

  // ---------- the class ----------

  class RamDb<I(==), R(==)> {
    var concerns: Contents<I, R>

    constructor ()
      ensures concerns == map[]
    {
      concerns := map[];
    }

    method Read(concern: string, key: string) returns (r: Option<Item<I, R>>)
      ensures r == Lookup(concerns, concern, key)
    {
      if concern !in concerns { return None; }
      var itemMap := concerns[concern];
      if key !in itemMap { return None; }
      r := Some(itemMap[key]);
    }

    method Create(concern: string, key: string, inst: I, cmpdOffset: CompoundOffset)
      modifies this
      ensures concerns == Write(old(concerns), concern, key, inst, None, cmpdOffset)
    {
      Update(concern, key, inst, None, cmpdOffset);
    }

    method Update(concern: string, key: string, inst: I, rel: Option<R>, cmpdOffset: CompoundOffset)
      modifies this
      ensures concerns == Write(old(concerns), concern, key, inst, rel, cmpdOffset)
    {
      if concern !in concerns {
        concerns := concerns[concern := map[]];
      }
      var itemMap := concerns[concern];
      var offsetOk := true;
      if key in itemMap {
        offsetOk := OffsetGT(cmpdOffset, itemMap[key].cmpdOffset);
      }
      if offsetOk {
        concerns := concerns[concern := itemMap[key := Item(inst, rel, cmpdOffset)]];
      }
    }

    method Delete(concern: string, key: string, cmpdOffset: CompoundOffset)
      modifies this
      ensures concerns == Erase(old(concerns), concern, key, cmpdOffset)
    {
      if concern !in concerns { return; }
      var itemMap := concerns[concern];
      var offsetOk := true;
      if key in itemMap {
        offsetOk := OffsetGT(cmpdOffset, itemMap[key].cmpdOffset);
      }
      if offsetOk {
        concerns := concerns[concern := itemMap - {key}];
      }
    }
  }

  // ---------- one cell at a time ----------

  function CellApply<I, R>(cell: Option<Item<I, R>>, concern: string, key: string, op: Op<I, R>): Option<Item<I, R>> {
    match op
    case Put(c, k, inst, rel, off) =>
      if c == concern && k == key && (cell == None || OffsetGT(off, cell.value.cmpdOffset))
      then Some(Item(inst, rel, off)) else cell
    case Del(c, k, off) =>
      if c == concern && k == key && (cell == None || OffsetGT(off, cell.value.cmpdOffset))
      then None else cell
    case Skip => cell
  }

  function CellRun<I, R>(cell: Option<Item<I, R>>, concern: string, key: string, ops: seq<Op<I, R>>): Option<Item<I, R>>
    decreases |ops|
  {
    if ops == [] then cell else CellRun(CellApply(cell, concern, key, ops[0]), concern, key, ops[1..])
  }

  lemma {:induction false} LookupRun<I, R>(db: Contents<I, R>, concern: string, key: string, ops: seq<Op<I, R>>)
    ensures Lookup(Run(db, ops), concern, key) == CellRun(Lookup(db, concern, key), concern, key, ops)
    decreases |ops|
  {
    if ops != [] {
      assert Lookup(Apply(db, ops[0]), concern, key) == CellApply(Lookup(db, concern, key), concern, key, ops[0]);
      LookupRun(Apply(db, ops[0]), concern, key, ops[1..]);
    }
  }

  predicate OnCell<I, R>(op: Op<I, R>, concern: string, key: string) {
    !op.Skip? && op.concern == concern && op.key == key
  }

  /** An earlier partition of the same generation. */
  predicate LowerPartition(a: CompoundOffset, b: CompoundOffset) {
    a.generation == b.generation && a.partition < b.partition
  }

  /** An item outlasts every operation from a lower partition, whatever their offsets. */
  lemma {:induction false} LowerStays<I, R>(db: Contents<I, R>, concern: string, key: string, ops: seq<Op<I, R>>)
    requires Lookup(db, concern, key).Some?
    requires forall op :: op in ops && OnCell(op, concern, key) ==>
                            LowerPartition(op.off, Lookup(db, concern, key).value.cmpdOffset)
    ensures Lookup(Run(db, ops), concern, key) == Lookup(db, concern, key)
    decreases |ops|
  {
    if ops != [] {
      assert ops[0] in ops;
      assert Lookup(Apply(db, ops[0]), concern, key) == Lookup(db, concern, key);
      LowerStays(Apply(db, ops[0]), concern, key, ops[1..]);
    }
  }

  /** What a sequence of operations does to one cell: cells below `threshold` become
      `below`, all others stay. No threshold means that nothing is below it. */
  datatype Effect<I, R> = Effect(threshold: Option<CompoundOffset>, below: Option<Item<I, R>>)

  predicate Beneath<I, R>(cell: Option<Item<I, R>>, threshold: Option<CompoundOffset>) {
    threshold.Some? && (cell.None? || OffsetGT(threshold.value, cell.value.cmpdOffset))
  }

  function EffectOf<I, R>(concern: string, key: string, ops: seq<Op<I, R>>): Effect<I, R>
    decreases |ops|
  {
    if ops == [] then Effect(None, None) else
      var rest := EffectOf(concern, key, ops[1..]);
      match ops[0]
      case Skip => rest
      case Put(c, k, inst, rel, off) =>
        if c != concern || k != key || (rest.threshold.Some? && OffsetGT(rest.threshold.value, off)) then rest
        else Effect(Some(off), Some(Item(inst, rel, off)))
      case Del(c, k, off) =>
        if c != concern || k != key || (rest.threshold.Some? && OffsetGTE(rest.threshold.value, off)) then rest
        else Effect(Some(off), if rest.threshold.Some? then rest.below else None)
  }

  lemma {:induction false} CellRunIsThreshold<I, R>(cell: Option<Item<I, R>>, concern: string, key: string,
                                                    ops: seq<Op<I, R>>)
    ensures var e := EffectOf(concern, key, ops);
            && (e.threshold.Some? && e.below.Some? ==> OffsetGTE(e.threshold.value, e.below.value.cmpdOffset))
            && CellRun(cell, concern, key, ops) == (if Beneath(cell, e.threshold) then e.below else cell)
    decreases |ops|
  {
    if ops != [] {
      CellRunIsThreshold(CellApply(cell, concern, key, ops[0]), concern, key, ops[1..]);
    }
  }

  lemma CellRunIdempotent<I, R>(cell: Option<Item<I, R>>, concern: string, key: string, ops: seq<Op<I, R>>)
    ensures CellRun(CellRun(cell, concern, key, ops), concern, key, ops) == CellRun(cell, concern, key, ops)
  {
    CellRunIsThreshold(cell, concern, key, ops);
    CellRunIsThreshold(CellRun(cell, concern, key, ops), concern, key, ops);
  }

  // ---------- the whole database ----------

  function Touched<I, R>(ops: seq<Op<I, R>>): set<string> {
    set i | 0 <= i < |ops| && ops[i].Put? :: ops[i].concern
  }

  lemma {:induction false} RunConcerns<I, R>(db: Contents<I, R>, ops: seq<Op<I, R>>)
    ensures Run(db, ops).Keys == db.Keys + Touched(ops)
    decreases |ops|
  {
    if ops != [] {
      RunConcerns(Apply(db, ops[0]), ops[1..]);
      forall c ensures c in Touched(ops) <==> c in Touched(ops[1..]) || (ops[0].Put? && c == ops[0].concern) {
        if c in Touched(ops) {
          var i :| 0 <= i < |ops| && ops[i].Put? && ops[i].concern == c;
          if i > 0 { assert ops[1..][i - 1] == ops[i]; }
        }
        if c in Touched(ops[1..]) {
          var i :| 0 <= i < |ops[1..]| && ops[1..][i].Put? && ops[1..][i].concern == c;
          assert ops[i + 1] == ops[1..][i];
        }
      }
    }
  }

  lemma SameContents<I, R>(a: Contents<I, R>, b: Contents<I, R>)
    requires a.Keys == b.Keys
    requires forall c: string, k: string :: Lookup(a, c, k) == Lookup(b, c, k)
    ensures a == b
  {
    forall c | c in a ensures a[c] == b[c] {
      forall k ensures (k in a[c] <==> k in b[c]) && (k in a[c] ==> a[c][k] == b[c][k]) {
        assert Lookup(a, c, k) == Lookup(b, c, k);
      }
    }
  }

  /** Applying any sequence of operations a second time changes nothing. */
  lemma RunIdempotent<I, R>(db: Contents<I, R>, ops: seq<Op<I, R>>)
    ensures Run(Run(db, ops), ops) == Run(db, ops)
  {
    var once := Run(db, ops);
    RunConcerns(db, ops);
    RunConcerns(once, ops);
    forall c: string, k: string ensures Lookup(Run(once, ops), c, k) == Lookup(once, c, k) {
      LookupRun(db, c, k, ops);
      LookupRun(once, c, k, ops);
      CellRunIdempotent(Lookup(db, c, k), c, k, ops);
    }
    SameContents(Run(once, ops), once);
  }

  lemma {:induction false} RunAppend<I, R>(db: Contents<I, R>, a: seq<Op<I, R>>, b: seq<Op<I, R>>)
    ensures Run(db, a + b) == Run(Run(db, a), b)
    decreases |a|
  {
    if a == [] {
      assert a + b == b;
    } else {
      assert (a + b)[0] == a[0] && (a + b)[1..] == a[1..] + b;
      RunAppend(Apply(db, a[0]), a[1..], b);
    }
  }
}
