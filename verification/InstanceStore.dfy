/**
 The in-memory instance cache of a process consumer (pkg/rkcy/instance_store.go). Every
 write is guarded by the offset of the message that makes it. `InOrderFold` states that in
 a consumer that reads its partition in order the guard never stops a write, so that the
 cache is the plain fold of the writes in log order.
 */
module InstanceStores {
  import opened Wrappers
  import opened Offsets

  /** A missing `related` stands for nil or empty related bytes; access times are left out. */
  datatype Rec<I, R> = Rec(inst: I, rel: Option<R>, cmpdOffset: CompoundOffset)

  type Store<I, R> = map<string, Rec<I, R>>

  function GetRelated<I, R>(s: Store<I, R>, key: string): Option<R> {
    if key in s then s[key].rel else None
  }

  predicate InOrder<I, R>(s: Store<I, R>, key: string, off: CompoundOffset) {
    key in s ==> OffsetGT(off, s[key].cmpdOffset)
  }

  function Set<I, R>(s: Store<I, R>, key: string, inst: I, rel: Option<R>, off: CompoundOffset): Store<I, R> {
    if InOrder(s, key, off) then s[key := Rec(inst, rel, off)] else s
  }

  function SetInstance<I, R>(s: Store<I, R>, key: string, inst: I, off: CompoundOffset): Store<I, R> {
    if InOrder(s, key, off) then s[key := Rec(inst, GetRelated(s, key), off)] else s
  }

  /** Setting related bytes of a missing key is an error and leaves the store as it is. */
  function SetRelated<I, R>(s: Store<I, R>, key: string, rel: Option<R>, off: CompoundOffset): Store<I, R> {
    if key in s && InOrder(s, key, off) then s[key := Rec(s[key].inst, rel, off)] else s
  }

  function Remove<I, R>(s: Store<I, R>, key: string): Store<I, R> { s - {key} }

  class InstanceStore<I(==), R(==)> {
    var instances: Store<I, R>

    constructor ()
      ensures instances == map[]
    {
      instances := map[];
    }

    method Get(key: string) returns (r: Option<Rec<I, R>>)
      ensures r == if key in instances then Some(instances[key]) else None
    {
      if key in instances { return Some(instances[key]); }
      r := None;
    }

    method GetInstance(key: string) returns (r: Option<I>)
      ensures r == if key in instances then Some(instances[key].inst) else None
    {
      var rec := Get(key);
      r := if rec.Some? then Some(rec.value.inst) else None;
    }

    method GetRelatedOf(key: string) returns (r: Option<R>)
      ensures r == GetRelated(instances, key)
    {
      var rec := Get(key);
      r := if rec.Some? then rec.value.rel else None;
    }

    method Put(key: string, instance: I, related: Option<R>, cmpdOffset: CompoundOffset)
      modifies this
      ensures instances == Set(old(instances), key, instance, related, cmpdOffset)
    {
      if key in instances {
        var rec := instances[key];
        if !OffsetGT(cmpdOffset, rec.cmpdOffset) { return; }
        rec := rec.(inst := instance);
        rec := rec.(rel := related);
        rec := rec.(cmpdOffset := cmpdOffset);
        instances := instances[key := rec];
      } else {
        instances := instances[key := Rec(instance, related, cmpdOffset)];
      }
    }

    method PutInstance(key: string, instance: I, cmpdOffset: CompoundOffset)
      modifies this
      ensures instances == SetInstance(old(instances), key, instance, cmpdOffset)
    {
      if key in instances {
        var rec := instances[key];
        if !OffsetGT(cmpdOffset, rec.cmpdOffset) { return; }
        instances := instances[key := rec.(inst := instance, cmpdOffset := cmpdOffset)];
      } else {
        instances := instances[key := Rec(instance, None, cmpdOffset)];
      }
    }

    /** False is the "missing key" error. */
    method PutRelated(key: string, related: Option<R>, cmpdOffset: CompoundOffset) returns (ok: bool)
      modifies this
      ensures ok <==> key in old(instances)
      ensures instances == SetRelated(old(instances), key, related, cmpdOffset)
    {
      if key in instances {
        var rec := instances[key];
        if !OffsetGT(cmpdOffset, rec.cmpdOffset) { return true; }
        instances := instances[key := rec.(rel := related, cmpdOffset := cmpdOffset)];
        return true;
      }
      ok := false;
    }

    method Delete(key: string)
      modifies this
      ensures instances == Remove(old(instances), key)
    {
      instances := instances - {key};
    }
  }

  // ---------- the cache of one consumer ----------

  datatype CacheWrite<I, R> =
    | PutBoth(key: string, inst: I, rel: Option<R>)
    | PutInst(key: string, inst: I)
    | PutRel(key: string, rel: Option<R>)
    | Drop(key: string)
    | Nothing

  function Guarded<I, R>(s: Store<I, R>, w: CacheWrite<I, R>, off: CompoundOffset): Store<I, R> {
    match w
    case PutBoth(k, i, r) => Set(s, k, i, r, off)
    case PutInst(k, i) => SetInstance(s, k, i, off)
    case PutRel(k, r) => SetRelated(s, k, r, off)
    case Drop(k) => Remove(s, k)
    case Nothing => s
  }

  /** The same write without a guard. */
  function Plain<I, R>(s: Store<I, R>, w: CacheWrite<I, R>, off: CompoundOffset): Store<I, R> {
    match w
    case PutBoth(k, i, r) => s[k := Rec(i, r, off)]
    case PutInst(k, i) => s[k := Rec(i, GetRelated(s, k), off)]
    case PutRel(k, r) => if k in s then s[k := Rec(s[k].inst, r, off)] else s
    case Drop(k) => s - {k}
    case Nothing => s
  }

  /** The message at position i of a partition carries offset i. */
  function OffsetAt(generation: int, partition: int, i: nat): CompoundOffset {
    CompoundOffset(generation, partition, i)
  }

  function CacheAfter<I, R>(log: seq<CacheWrite<I, R>>, generation: int, partition: int): Store<I, R> {
    if log == [] then map[]
    else
      var n := |log| - 1;
      Guarded(CacheAfter(log[..n], generation, partition), log[n], OffsetAt(generation, partition, n))
  }

  function FoldAfter<I, R>(log: seq<CacheWrite<I, R>>, generation: int, partition: int): Store<I, R> {
    if log == [] then map[]
    else
      var n := |log| - 1;
      Plain(FoldAfter(log[..n], generation, partition), log[n], OffsetAt(generation, partition, n))
  }

  /** In a partition read in order no write is out of order, and the cache is the fold of
      all writes in log order. */
  lemma {:induction false} InOrderFold<I, R>(log: seq<CacheWrite<I, R>>, generation: int, partition: int)
    ensures CacheAfter(log, generation, partition) == FoldAfter(log, generation, partition)
    ensures forall k, m: nat :: m >= |log| ==> InOrder(CacheAfter(log, generation, partition), k,
                                                       OffsetAt(generation, partition, m))
    decreases |log|
  {
    if log != [] {
      var n := |log| - 1;
      var s := CacheAfter(log[..n], generation, partition);
      InOrderFold(log[..n], generation, partition);
      forall k ensures InOrder(s, k, OffsetAt(generation, partition, n)) {}
      forall k, m: nat | m >= |log|
        ensures InOrder(CacheAfter(log, generation, partition), k, OffsetAt(generation, partition, m)) {
        assert InOrder(s, k, OffsetAt(generation, partition, m));
      }
    }
  }
}
