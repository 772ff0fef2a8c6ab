/**
 The cache of a process partition as its handlers leave it. Every visit makes at most one
 write to the cache, at the offset of its own message; so the cache of a partition read in
 order is the plain fold of these writes in log order, and its guard never stops one.
 */
module RpgCache {
  import opened Wrappers
  import opened Offsets
  import opened ApecsTxns
  import opened ApecsRunners
  import opened InstanceStores
  import opened Rpg
  import opened RpgWorlds

  type MWrite = CacheWrite<Instance, Related>

  /** The write a handler makes that has answered with success: what it puts under its key,
      or that it drops it. Whether the offset lets it through is not its affair. */
  function HandlerWrite(concern: string, command: Command, a: LogicArgs, store: MStore): MWrite {
    var r := HandleLogic(concern, command, a, store).outcome;
    if !Succeeded(r) then Nothing
    else match command
      case RefreshInstance => RefreshWrite(a, store)
      case FlushInstance => Drop(a.key)
      case RequestRelated => RelatedWrite(concern, command, a, store)
      case RefreshRelated => RelatedWrite(concern, command, a, store)
      case Platform(_) =>
        // a changed instance is reported in the result
        if r.result.value.instance.Some? && r.result.value.instance.value.Inst?
        then PutInst(a.key, r.result.value.instance.value.inst) else Nothing
      case _ => Nothing
  }

  function RefreshWrite(a: LogicArgs, store: MStore): MWrite {
    if a.payload.None? || PayloadInst(a.payload.value).None? then Nothing
    else
      var given := if a.payload.value.Packed? then a.payload.value.rel else None;
      PutBoth(a.key, PayloadInst(a.payload.value).value, if given.Some? then given else GetRelated(store, a.key))
  }

  function RelatedWrite(concern: string, command: Command, a: LogicArgs, store: MStore): MWrite {
    var rel := RelatedOf(store, a.key, concern);
    if rel.None? || a.payload.None? then Nothing
    else
      var q := a.payload.value;
      var change :=
        if command.RequestRelated? && q.RelReq? then OnRequestRelated(rel.value, q.concern, q.field, q.payload)
        else if command.RefreshRelated? && q.RelRsp? then OnRefreshRelated(rel.value, q.concern, q.field, q.payload)
        else RelRefused;
      if change.RelChange? && change.changed then PutRel(a.key, RelBytes(change.rel)) else Nothing
  }

  /** Whatever the command, the handler's effect on the cache is that one write, at the
      message's offset and under the guard. */
  lemma HandlerWrites(concern: string, command: Command, a: LogicArgs, store: MStore)
    ensures HandleLogic(concern, command, a, store).state
            == Guarded(store, HandlerWrite(concern, command, a, store), a.off)
  {
    match command
    case Platform(name) => PlatformWrites(concern, name, a, store);
    case RequestRelated => RelatedWrites(concern, command, a, store);
    case RefreshRelated => RelatedWrites(concern, command, a, store);
    case _ =>
  }

  lemma PlatformWrites(concern: string, name: string, a: LogicArgs, store: MStore)
    ensures HandlePlatform(concern, name, a, store).state
            == Guarded(store, HandlerWrite(concern, Platform(name), a, store), a.off)
  {
  }

  lemma RelatedWrites(concern: string, command: Command, a: LogicArgs, store: MStore)
    requires command.RequestRelated? || command.RefreshRelated?
    ensures HandleRelated(concern, command, a, store).state
            == Guarded(store, HandlerWrite(concern, command, a, store), a.off)
  {
  }

  /** The write of one visit: that of the handler, if it is asked. */
  function VisitWrite(w: World, txn: MTxn, off: CompoundOffset): MWrite
    requires InRange(txn)
  {
    var n := Current(txn).concern;
    if !AdmitAt(w, txn, off).Admitted? || (n != CHARACTER && n != PLAYER) then Nothing
    else
      var step, inst := Arrived(txn, off), AdmitAt(w, txn, off).inst;
      var i := if inst.Some? && inst.value.Inst? then Some(inst.value.inst) else None;
      HandlerWrite(n, step.command, LogicArgs(step.key, i, step.payload, off), StoreOf(w, n))
  }

  /** One visit of a PROCESS message of the concern, whatever becomes of the message. */
  lemma ServeWrites(w: World, txn: MTxn, off: CompoundOffset, freshKey: string)
    requires InRange(txn) && Current(txn).system.Process?
    ensures var n := Current(txn).concern;
            StoreOf(Serve(w, txn, off, freshKey).world, n) == Guarded(StoreOf(w, n), VisitWrite(w, txn, off), off)
  {
    var n := Current(txn).concern;
    if AdmitAt(w, txn, off).Admitted? && (n == CHARACTER || n == PLAYER) {
      var step, inst := Arrived(txn, off), AdmitAt(w, txn, off).inst;
      var i := if inst.Some? && inst.value.Inst? then Some(inst.value.inst) else None;
      HandlerWrites(n, step.command, LogicArgs(step.key, i, step.payload, off), StoreOf(w, n));
    }
  }

  /** The messages of one partition of a concern's PROCESS topic, served in order, message i
      at offset i; in between, other consumers may change anything but this cache. */
  ghost predicate PartitionRun(worlds: seq<World>, txns: seq<MTxn>, keys: seq<string>, concern: string, generation: int,
                               partition: int) {
    && |worlds| == |txns| + 1 && |keys| == |txns| && StoreOf(worlds[0], concern) == map[]
    && forall i :: 0 <= i < |txns| ==>
         && InRange(txns[i]) && Current(txns[i]).system.Process? && Current(txns[i]).concern == concern
         && StoreOf(worlds[i + 1], concern) ==
              StoreOf(Serve(worlds[i], txns[i], OffsetAt(generation, partition, i), keys[i]).world, concern)
  }

  /** The writes of the first `n` messages. */
  ghost function LogOf(worlds: seq<World>, txns: seq<MTxn>, generation: int, partition: int, n: nat): (log: seq<MWrite>)
    requires n <= |txns| && n <= |worlds| && forall i :: 0 <= i < n ==> InRange(txns[i])
    ensures |log| == n
  {
    seq(n, i requires 0 <= i < n => VisitWrite(worlds[i], txns[i], OffsetAt(generation, partition, i)))
  }

  /** The cache after any number of messages is the plain fold of their writes in log order;
      for the next message no record is out of order. */
  lemma {:induction false} PartitionFold(worlds: seq<World>, txns: seq<MTxn>, keys: seq<string>, concern: string,
                                         generation: int, partition: int, n: nat)
    requires PartitionRun(worlds, txns, keys, concern, generation, partition) && n <= |txns|
    ensures var log := LogOf(worlds, txns, generation, partition, n);
            && StoreOf(worlds[n], concern) == FoldAfter(log, generation, partition)
            && StoreOf(worlds[n], concern) == CacheAfter(log, generation, partition)
    ensures forall k :: InOrder(StoreOf(worlds[n], concern), k, OffsetAt(generation, partition, n))
    decreases n
  {
    var log := LogOf(worlds, txns, generation, partition, n);
    if n > 0 {
      var i := n - 1;
      PartitionFold(worlds, txns, keys, concern, generation, partition, i);
      assert log[..i] == LogOf(worlds, txns, generation, partition, i);
      ServeWrites(worlds[i], txns[i], OffsetAt(generation, partition, i), keys[i]);
      assert log[i] == VisitWrite(worlds[i], txns[i], OffsetAt(generation, partition, i));
    }
    InOrderFold(log, generation, partition);
  }
}
