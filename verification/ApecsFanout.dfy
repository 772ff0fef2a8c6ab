/**
 The storage transactions a completed transaction spawns (the completion branch of
 produceNextStep in pkg/apecs/apecs_runner.go): one secondary transaction per STORAGE
 create, update or delete, and one primary and one secondary UPDATE_ASYNC per instance
 that a PROCESS step changed.
 */
module ApecsFanouts {
  import opened Wrappers
  import opened Seqs
  import opened Topics
  import opened Offsets
  import opened ApecsTxns
  import opened ApecsRunners
  import opened ApecsInvariants

  /** Packing an instance with the related bytes cached under a key, and taking the payload
      out of a related response; both are opaque here. */
  datatype Codec<!B> = Codec(pack: (B, string) -> B, relatedPayload: Option<B> -> Option<B>)

  // ---------- secondary copies of storage steps ----------

  predicate IsStorageWrite<B>(step: Step<B>) {
    step.system.Storage? && (step.command.Create? || step.command.Update? || step.command.Delete?)
  }

  function SecondaryOf<B>(step: Step<B>): Step<B>
    requires step.result.Some?
  {
    Step(StorageScnd, step.concern, step.command, step.result.value.key, step.result.value.payload, None,
         step.cmpdOffset, None)
  }

  function Secondary<B>(steps: seq<Step<B>>): seq<Step<B>>
    requires AllOk(steps)
  {
    if steps == [] then []
    else (if IsStorageWrite(steps[0]) then [SecondaryOf(steps[0])] else []) + Secondary(steps[1..])
  }

  /** The indices of the STORAGE creates, updates and deletes, in order. */
  ghost predicate WriteIndices<B>(steps: seq<Step<B>>, at: seq<nat>) {
    && (forall i, j :: 0 <= i < j < |at| ==> at[i] < at[j])
    && forall n: nat :: n in at <==> n < |steps| && steps[n].system == Storage
                                     && (steps[n].command == Create || steps[n].command == Update
                                         || steps[n].command == Delete)
  }

  /** One STORAGE_SCND step for each of them, in order, under the key and with the payload of
      its result. */
  ghost predicate CopiesAt<B>(steps: seq<Step<B>>, at: seq<nat>, copies: seq<Step<B>>)
    requires AllOk(steps) && WriteIndices(steps, at)
  {
    |copies| == |at| && forall i :: 0 <= i < |at| ==> at[i] in at && var step := steps[at[i]];
      copies[i] == Step(StorageScnd, step.concern, step.command, step.result.value.key, step.result.value.payload,
                        None, step.cmpdOffset, None)
  }

  ghost predicate CopiesOf<B>(steps: seq<Step<B>>, copies: seq<Step<B>>)
    requires AllOk(steps)
  {
    exists at :: WriteIndices(steps, at) && CopiesAt(steps, at, copies)
  }

  // ---------- changed instances ----------

  predicate Changes<B>(step: Step<B>)
    requires step.result.Some?
  {
    step.system.Process? && (step.result.value.instance.Some? || step.command.RequestRelated?
                             || step.command.RefreshRelated?)
  }

  function StepInst<B>(step: Step<B>, codec: Codec<B>): Option<B>
    requires step.result.Some?
  {
    var r := step.result.value;
    if r.instance.Some? then Some(codec.pack(r.instance.value, step.key))
    else if step.command.RequestRelated? then codec.relatedPayload(r.payload)
    else if step.command.RefreshRelated? then r.payload
    else None
  }

  function StepKey<B>(step: Step<B>): string { step.concern + "_" + step.key }

  /** The step leaves something to store. */
  predicate Stores<B>(step: Step<B>, codec: Codec<B>) {
    step.result.Some? && Changes(step) && StepInst(step, codec).Some?
  }

  function UpdateOf<B>(step: Step<B>, codec: Codec<B>): Step<B>
    requires Stores(step, codec)
  {
    Step(Storage, step.concern, UpdateAsync, step.key, StepInst(step, codec), None, step.cmpdOffset, None)
  }

  /** storageStepsMap: a later step overwrites an earlier one under the same key. */
  function Updates<B>(steps: seq<Step<B>>, codec: Codec<B>): map<string, Step<B>> {
    if steps == [] then map[]
    else
      var last := steps[|steps| - 1];
      var m := Updates(steps[..|steps| - 1], codec);
      if Stores(last, codec) then m[StepKey(last) := UpdateOf(last, codec)] else m
  }

  /** A finished PROCESS step leaves something to store: a changed instance, the payload in the
      answer to a related request, or the answer to a related refresh. */
  ghost predicate Leaves<B>(step: Step<B>, codec: Codec<B>) {
    && step.system == Process && step.result.Some?
    && var r := step.result.value;
       || r.instance.Some?
       || (step.command == RequestRelated && codec.relatedPayload(r.payload).Some?)
       || (step.command == RefreshRelated && r.payload.Some?)
  }

  /** Step `i` is the last that does for its instance. */
  ghost predicate LastLeft<B>(steps: seq<Step<B>>, codec: Codec<B>, concern: string, key: string, i: int) {
    && 0 <= i < |steps| && steps[i].concern == concern && steps[i].key == key && Leaves(steps[i], codec)
    && forall j :: i < j < |steps| && steps[j].concern == concern && steps[j].key == key ==> !Leaves(steps[j], codec)
  }

  /** The UPDATE_ASYNC step that stores what `step` leaves: at its offset, a changed instance
      packed with its related bytes. */
  ghost predicate IsUpdateOf<B>(x: Step<B>, system: System, step: Step<B>, codec: Codec<B>)
    requires Leaves(step, codec)
  {
    && x == Step(system, step.concern, UpdateAsync, step.key, x.payload, None, step.cmpdOffset, None)
    && x.payload == var r := step.result.value;
                    match r.instance
                    case Some(i) => Some(codec.pack(i, step.key))
                    case None => if step.command == RequestRelated then codec.relatedPayload(r.payload) else r.payload
  }

  // ---------- the spawned steps, in the order the map happened to be walked ----------

  ghost predicate Enumerates(order: seq<string>, keys: set<string>) {
    && (forall i, j :: 0 <= i < j < |order| ==> order[i] != order[j])
    && (forall k :: k in keys <==> k in order)
  }

  function Pairs<B>(updates: map<string, Step<B>>, order: seq<string>): seq<Step<B>>
    requires forall i :: 0 <= i < |order| ==> order[i] in updates
  {
    if order == [] then []
    else [updates[order[0]], updates[order[0]].(system := StorageScnd)] + Pairs(updates, order[1..])
  }

  ghost function SpawnedSteps<B>(steps: seq<Step<B>>, codec: Codec<B>, order: seq<string>): seq<Step<B>>
    requires AllOk(steps) && Enumerates(order, Updates(steps, codec).Keys)
  {
    Secondary(steps) + Pairs(Updates(steps, codec), order)
  }

  function SpawnedTxn<B>(id: string, parent: string, step: Step<B>): Txn<B> {
    Txn(id, [AssocTxn(parent, Parent)], None, 0, Bailout, [step])
  }

  // ---------- the loops ----------

  method ExecuteTxn<B>(id: string, parent: string, step: Step<B>) returns (r: Txn<B>)
    requires !step.system.Process?
    ensures r == SpawnedTxn(id, parent, step)
    ensures r.id == id && r.assocTxns == [AssocTxn(parent, Parent)] && r.responseTarget.None? && r.uponError == Bailout
            && r.forwardSteps == [step]
  {
    assert ExpandAll([step]) == Expand(step) + ExpandAll([step][1..]);
    r := NewApecsTxn(id, Some(AssocTxn(parent, Parent)), None, Bailout, [step]).value;
  }

  lemma {:induction false} SecondaryAppend<B>(a: seq<Step<B>>, b: seq<Step<B>>)
    requires AllOk(a) && AllOk(b)
    ensures AllOk(a + b) && Secondary(a + b) == Secondary(a) + Secondary(b)
    decreases |a|
  {
    if a == [] {
      assert a + b == b;
    } else {
      assert (a + b)[1..] == a[1..] + b;
      SecondaryAppend(a[1..], b);
      Assoc(if IsStorageWrite(a[0]) then [SecondaryOf(a[0])] else [], Secondary(a[1..]), Secondary(b));
    }
  }

  lemma SecondaryOne<B>(step: Step<B>)
    requires DoneOk(step)
    ensures AllOk([step]) && Secondary([step]) == if IsStorageWrite(step) then [SecondaryOf(step)] else []
  {
    assert [step][1..] == [];
  }

  lemma {:induction false} SecondaryCopies<B>(steps: seq<Step<B>>) returns (at: seq<nat>)
    requires AllOk(steps)
    ensures WriteIndices(steps, at) && CopiesAt(steps, at, Secondary(steps))
    decreases |steps|
  {
    at := [];
    if steps != [] {
      var n := |steps| - 1;
      var init, last := steps[..n], steps[n];
      at := SecondaryCopies(init);
      var before := at;
      if last.system.Storage? && (last.command.Create? || last.command.Update? || last.command.Delete?) {
        at := before + [n];
      }
      assert steps == init + [last];
      SecondaryOne(last);
      SecondaryAppend(init, [last]);
    }
  }

  lemma {:induction false} PairsAppend<B>(updates: map<string, Step<B>>, a: seq<string>, b: seq<string>)
    requires forall i :: 0 <= i < |a| ==> a[i] in updates
    requires forall i :: 0 <= i < |b| ==> b[i] in updates
    ensures Pairs(updates, a + b) == Pairs(updates, a) + Pairs(updates, b)
    decreases |a|
  {
    if a == [] {
      assert a + b == b;
    } else {
      assert (a + b)[1..] == a[1..] + b;
      PairsAppend(updates, a[1..], b);
    }
  }

  /** The first loop: a secondary transaction for every storage write. */
  method SpawnSecondaries<B>(txn: Txn<B>, ids: nat -> string) returns (spawned: seq<Txn<B>>, assoc: seq<AssocTxn>)
    requires AllOk(txn.forwardSteps)
    ensures var s := Secondary(txn.forwardSteps);
            && CopiesOf(txn.forwardSteps, s) && |spawned| == |assoc| == |s|
            && forall i :: 0 <= i < |s| ==>
                 spawned[i] == SpawnedTxn(ids(i), txn.id, s[i]) && assoc[i] == AssocTxn(ids(i), SecondaryStorage)
  {
    ghost var at := SecondaryCopies(txn.forwardSteps);
    spawned, assoc := [], [];
    var steps := txn.forwardSteps;
    ghost var s: seq<Step<B>> := [];
    for i := 0 to |steps|
      invariant AllOk(steps[..i]) && s == Secondary(steps[..i])
      invariant |spawned| == |assoc| == |s|
      invariant forall j :: 0 <= j < |s| ==>
                  spawned[j] == SpawnedTxn(ids(j), txn.id, s[j]) && assoc[j] == AssocTxn(ids(j), SecondaryStorage)
    {
      var step := steps[i];
      assert steps[..i + 1] == steps[..i] + [step];
      SecondaryOne(step);
      SecondaryAppend(steps[..i], [step]);
      if step.system.Storage? && (step.command.Create? || step.command.Update? || step.command.Delete?) {
        var id := ids(|spawned|);
        var storageTxn := ExecuteTxn(id, txn.id, SecondaryOf(step));
        assoc := assoc + [AssocTxn(id, SecondaryStorage)];
        spawned := spawned + [storageTxn];
      }
      s := Secondary(steps[..i + 1]);
    }
    assert steps[..|steps|] == steps;
  }

  /** The second loop: fill the map of changed instances. */
  method CollectUpdates<B>(steps: seq<Step<B>>, codec: Codec<B>) returns (m: map<string, Step<B>>)
    requires AllOk(steps)
    ensures m == Updates(steps, codec)
  {
    m := map[];
    for i := 0 to |steps|
      invariant m == Updates(steps[..i], codec)
    {
      var step := steps[i];
      assert steps[..i + 1][..i] == steps[..i];
      var r := step.result.value;
      if step.system.Process? && (r.instance.Some? || step.command.RequestRelated? || step.command.RefreshRelated?) {
        var stepInst: Option<B> := None;
        if r.instance.Some? {
          stepInst := Some(codec.pack(r.instance.value, step.key));
        } else if step.command.RequestRelated? {
          stepInst := codec.relatedPayload(r.payload);
        } else if step.command.RefreshRelated? {
          stepInst := r.payload;
        }
        if stepInst.Some? {
          m := m[StepKey(step) := Step(Storage, step.concern, UpdateAsync, step.key, stepInst, None, step.cmpdOffset,
                                       None)];
        }
      }
    }
    assert steps[..|steps|] == steps;
  }

  lemma PairsLast<B>(updates: map<string, Step<B>>, order: seq<string>, k: string)
    requires k in updates && forall i :: 0 <= i < |order| ==> order[i] in updates
    ensures Pairs(updates, order + [k]) == Pairs(updates, order) + [updates[k], updates[k].(system := StorageScnd)]
  {
    assert Pairs(updates, [k]) == [updates[k], updates[k].(system := StorageScnd)] + Pairs(updates, [k][1..]);
    PairsAppend(updates, order, [k]);
  }

  /** One transaction per step, with ids in order. */
  ghost predicate OneEach<B>(spawned: seq<Txn<B>>, s: seq<Step<B>>, ids: nat -> string, first: nat, parent: string) {
    |spawned| == |s| && forall i :: 0 <= i < |s| ==> spawned[i] == SpawnedTxn(ids(first + i), parent, s[i])
  }

  /** Both transactions of an entry are recorded under the id of the first. */
  ghost predicate RecordedTwice(assoc: seq<AssocTxn>, n: nat, ids: nat -> string, first: nat) {
    |assoc| == 2 * n &&
    forall i :: 0 <= i < n ==> assoc[2 * i] == assoc[2 * i + 1] == AssocTxn(ids(first + 2 * i), GeneratedStorage)
  }

  lemma OneEachMore<B>(spawned: seq<Txn<B>>, s: seq<Step<B>>, ids: nat -> string, first: nat, parent: string,
                       x: Step<B>, y: Step<B>)
    requires OneEach(spawned, s, ids, first, parent)
    ensures var n := first + |spawned|;
            OneEach(spawned + [SpawnedTxn(ids(n), parent, x), SpawnedTxn(ids(n + 1), parent, y)], s + [x, y],
                    ids, first, parent)
  {
  }

  lemma RecordedMore(assoc: seq<AssocTxn>, n: nat, ids: nat -> string, first: nat)
    requires RecordedTwice(assoc, n, ids, first)
    ensures var a := AssocTxn(ids(first + 2 * n), GeneratedStorage); RecordedTwice(assoc + [a, a], n + 1, ids, first)
  {
  }

  /** The third loop walks the map in an arbitrary order. The associated id of a secondary
      transaction is the one of its primary. */
  method SpawnUpdates<B>(txn: Txn<B>, updates: map<string, Step<B>>, ids: nat -> string, first: nat)
    returns (spawned: seq<Txn<B>>, assoc: seq<AssocTxn>, ghost order: seq<string>)
    requires forall k :: k in updates ==> updates[k].system.Storage?
    ensures Enumerates(order, updates.Keys)
    ensures forall i :: 0 <= i < |order| ==> order[i] in updates
    ensures OneEach(spawned, Pairs(updates, order), ids, first, txn.id)
    ensures RecordedTwice(assoc, |order|, ids, first) && |spawned| == |assoc|
  {
    var keys := AnyOrder(updates.Keys);
    order := keys;
    spawned, assoc := [], [];
    for i := 0 to |keys|
      invariant OneEach(spawned, Pairs(updates, keys[..i]), ids, first, txn.id)
      invariant RecordedTwice(assoc, i, ids, first) && |spawned| == |assoc|
    {
      PairsLast(updates, keys[..i], keys[i]);
      assert keys[..i + 1] == keys[..i] + [keys[i]];
      spawned, assoc := SpawnPair(spawned, assoc, updates[keys[i]], ids, first, i, txn.id, Pairs(updates, keys[..i]));
    }
    assert keys[..|keys|] == keys;
  }

  /** The primary and the secondary transaction of one entry. */
  method SpawnPair<B>(spawned: seq<Txn<B>>, assoc: seq<AssocTxn>, step: Step<B>, ids: nat -> string, first: nat, i: nat,
                      parent: string, ghost s: seq<Step<B>>)
    returns (spawned': seq<Txn<B>>, assoc': seq<AssocTxn>)
    requires step.system.Storage? && |spawned| == |assoc|
    requires OneEach(spawned, s, ids, first, parent) && RecordedTwice(assoc, i, ids, first)
    ensures OneEach(spawned', s + [step, step.(system := StorageScnd)], ids, first, parent)
    ensures RecordedTwice(assoc', i + 1, ids, first) && |spawned'| == |assoc'|
  {
    var n := first + |spawned|;
    var primary := ExecuteTxn(ids(n), parent, step);
    var secondary := ExecuteTxn(ids(n + 1), parent, step.(system := StorageScnd));
    OneEachMore(spawned, s, ids, first, parent, step, step.(system := StorageScnd));
    RecordedMore(assoc, i, ids, first);
    spawned' := spawned + [primary, secondary];
    assoc' := assoc + [AssocTxn(ids(n), GeneratedStorage), AssocTxn(ids(n), GeneratedStorage)];
  }

  /** A map gives its keys in an arbitrary order. */
  method AnyOrder(keys: set<string>) returns (order: seq<string>)
    ensures Enumerates(order, keys)
    ensures forall i :: 0 <= i < |order| ==> order[i] in keys
  {
    order := [];
    var todo := keys;
    while todo != {}
      invariant todo <= keys
      invariant forall i :: 0 <= i < |order| ==> order[i] in keys && order[i] !in todo
      invariant Enumerates(order, keys - todo)
      decreases |todo|
    {
      var k :| k in todo;
      order := order + [k];
      todo := todo - {k};
    }
  }

  // ---------- what the map holds ----------

  predicate NoUnderscore(s: string) { forall i :: 0 <= i < |s| ==> s[i] != '_' }

  /** Concern names, which the platform requires to be letters and dashes, keep map keys of
      different instances apart. */
  lemma StepKeyInjective(c: string, k: string, d: string, l: string)
    requires NoUnderscore(c) && NoUnderscore(d) && c + "_" + k == d + "_" + l
    ensures c == d && k == l
  {
    var s, t := c + "_" + k, d + "_" + l;
    assert s[|c|] == '_' && t[|d|] == '_';
    assert |c| == |d|;
    assert s[..|c|] == c && t[..|d|] == d;
    assert s[|c| + 1..] == k && t[|d| + 1..] == l;
  }

  /** The names a platform admits have no underscore. */
  lemma ValidNamePlain(name: string)
    requires IsValidName(name)
    ensures NoUnderscore(name)
  {
  }

  predicate PlainConcerns<B>(steps: seq<Step<B>>) {
    forall i :: 0 <= i < |steps| ==> NoUnderscore(steps[i].concern)
  }

  predicate StoresFor<B>(step: Step<B>, codec: Codec<B>, concern: string, key: string) {
    Stores(step, codec) && step.concern == concern && step.key == key
  }

  lemma {:induction false} UpdatesAreLast<B>(steps: seq<Step<B>>, codec: Codec<B>, concern: string, key: string)
    requires PlainConcerns(steps) && NoUnderscore(concern)
    ensures var m, sk := Updates(steps, codec), concern + "_" + key;
            && (sk in m <==> exists i :: LastLeft(steps, codec, concern, key, i))
            && forall i :: LastLeft(steps, codec, concern, key, i) ==> IsUpdateOf(m[sk], Storage, steps[i], codec)
  {
    if steps != [] {
      var n, sk := |steps| - 1, concern + "_" + key;
      var last, init := steps[n], steps[..n];
      UpdatesAreLast(init, codec, concern, key);
      if StoresFor(last, codec, concern, key) {
        assert LastLeft(steps, codec, concern, key, n);
      } else {
        if Stores(last, codec) && StepKey(last) == sk {
          StepKeyInjective(last.concern, last.key, concern, key);
        }
        assert forall i :: LastLeft(init, codec, concern, key, i) <==> LastLeft(steps, codec, concern, key, i);
      }
    }
  }

  lemma {:induction false} UpdatesShape<B>(steps: seq<Step<B>>, codec: Codec<B>)
    ensures forall sk :: sk in Updates(steps, codec) ==>
              var u := Updates(steps, codec)[sk];
              u.system.Storage? && u.command.UpdateAsync? && StepKey(u) == sk && exists i ::
                    0 <= i < |steps| && steps[i].concern == u.concern
  {
    if steps != [] {
      var init := steps[..|steps| - 1];
      UpdatesShape(init, codec);
      forall sk | sk in Updates(steps, codec)
        ensures exists i :: 0 <= i < |steps| && steps[i].concern == Updates(steps, codec)[sk].concern
      {
        if Stores(steps[|steps| - 1], codec) && sk == StepKey(steps[|steps| - 1]) {
          assert Updates(steps, codec)[sk].concern == steps[|steps| - 1].concern;
        } else {
          assert sk in Updates(init, codec) && Updates(steps, codec)[sk] == Updates(init, codec)[sk];
          var i :| 0 <= i < |init| && init[i].concern == Updates(init, codec)[sk].concern;
          assert steps[i] == init[i];
        }
      }
    }
  }

  // ---------- exactly one each ----------

  predicate IsUpdateFor<B>(step: Step<B>, system: System, concern: string, key: string) {
    step.system == system && step.command.UpdateAsync? && step.concern == concern && step.key == key
  }

  function CountUpdates<B>(steps: seq<Step<B>>, system: System, concern: string, key: string): nat {
    if steps == [] then 0
    else (if IsUpdateFor(steps[0], system, concern, key) then 1 else 0) + CountUpdates(steps[1..], system, concern, key)
  }

  lemma {:induction false} CountUpdatesAppend<B>(a: seq<Step<B>>, b: seq<Step<B>>, system: System, concern: string,
                                                 key: string)
    ensures CountUpdates(a + b, system, concern, key) == CountUpdates(a, system, concern,
                                                                      key) + CountUpdates(b, system, concern, key)
    decreases |a|
  {
    if a == [] {
      assert a + b == b;
    } else {
      assert (a + b)[1..] == a[1..] + b;
      CountUpdatesAppend(a[1..], b, system, concern, key);
    }
  }

  lemma {:induction false} SecondaryHasNoUpdates<B>(steps: seq<Step<B>>, system: System, concern: string, key: string)
    requires AllOk(steps)
    ensures CountUpdates(Secondary(steps), system, concern, key) == 0
    decreases |steps|
  {
    if steps != [] {
      SecondaryHasNoUpdates(steps[1..], system, concern, key);
      if IsStorageWrite(steps[0]) {
        assert Secondary(steps)[1..] == Secondary(steps[1..]);
      } else {
        assert Secondary(steps) == Secondary(steps[1..]);
      }
    }
  }

  lemma {:induction false} PairsCount<B>(updates: map<string, Step<B>>, order: seq<string>, system: System,
                                         concern: string, key: string)
    requires system.Storage? || system.StorageScnd?
    requires NoUnderscore(concern)
    requires forall i, j :: 0 <= i < j < |order| ==> order[i] != order[j]
    requires forall i :: 0 <= i < |order| ==> order[i] in updates
    requires forall sk :: sk in updates ==>
               updates[sk].system.Storage? && updates[sk].command.UpdateAsync? && StepKey(updates[sk]) == sk
                   && NoUnderscore(updates[sk].concern)
    ensures CountUpdates(Pairs(updates, order), system, concern, key) == if concern + "_" + key in order then 1 else 0
    decreases |order|
  {
    if order != [] {
      var sk, ps, rest := order[0], Pairs(updates, order), Pairs(updates, order[1..]);
      PairsCount(updates, order[1..], system, concern, key);
      assert ps[1..][1..] == rest;
      if sk == concern + "_" + key {
        StepKeyInjective(updates[sk].concern, updates[sk].key, concern, key);
        assert sk !in order[1..];
      } else {
        assert StepKey(updates[sk]) == sk;
      }
      assert concern + "_" + key in order <==> concern + "_" + key == sk || concern + "_" + key in order[1..];
    }
  }

  /** `s` has one update of the instance for `system` if a step leaves something to store for
      it, made of the last such step, and none otherwise. */
  ghost predicate UpdatedOnce<B>(steps: seq<Step<B>>, codec: Codec<B>, s: seq<Step<B>>, system: System, concern: string,
                                 key: string) {
    && CountUpdates(s, system, concern, key) == (if exists i :: LastLeft(steps, codec, concern, key, i) then 1 else 0)
    && forall i :: LastLeft(steps, codec, concern, key, i) ==>
                     exists x :: x in s && IsUpdateOf(x, system, steps[i], codec)
  }

  /** A spawned update is made of the last step that left something for its instance. */
  ghost predicate MadeOfLast<B>(steps: seq<Step<B>>, codec: Codec<B>, x: Step<B>) {
    exists i :: LastLeft(steps, codec, x.concern, x.key, i)
                && (IsUpdateOf(x, Storage, steps[i], codec) || IsUpdateOf(x, StorageScnd, steps[i], codec))
  }

  /** `s` is one copy per STORAGE create, update and delete, in order, and then the primary and
      the secondary updates of `n` instances, each made of the last step that left something. */
  ghost predicate CopiesThenUpdates<B>(steps: seq<Step<B>>, codec: Codec<B>, s: seq<Step<B>>, n: nat)
    requires AllOk(steps)
  {
    && 2 * n <= |s| && CopiesOf(steps, s[..|s| - 2 * n])
    && forall m :: |s| - 2 * n <= m < |s| ==> MadeOfLast(steps, codec, s[m])
  }

  lemma UpdatesCounted<B>(steps: seq<Step<B>>, codec: Codec<B>, order: seq<string>, system: System, concern: string,
                          key: string)
    requires AllOk(steps) && PlainConcerns(steps) && NoUnderscore(concern)
    requires Enumerates(order, Updates(steps, codec).Keys) && IsStorageSystem(system)
    ensures CountUpdates(SpawnedSteps(steps, codec, order), system, concern, key)
            == if concern + "_" + key in Updates(steps, codec) then 1 else 0
  {
    var m := Updates(steps, codec);
    UpdatesShape(steps, codec);
    forall k | k in m ensures NoUnderscore(m[k].concern) {
      var i :| 0 <= i < |steps| && steps[i].concern == m[k].concern;
    }
    CountUpdatesAppend(Secondary(steps), Pairs(m, order), system, concern, key);
    SecondaryHasNoUpdates(steps, system, concern, key);
    PairsCount(m, order, system, concern, key);
  }

  lemma UpdateHeld<B>(steps: seq<Step<B>>, codec: Codec<B>, order: seq<string>, system: System, concern: string,
                      key: string)
    requires AllOk(steps) && PlainConcerns(steps) && NoUnderscore(concern)
    requires Enumerates(order, Updates(steps, codec).Keys) && IsStorageSystem(system)
    ensures UpdatedOnce(steps, codec, SpawnedSteps(steps, codec, order), system, concern, key)
  {
    var m, sk, s := Updates(steps, codec), concern + "_" + key, SpawnedSteps(steps, codec, order);
    UpdatesCounted(steps, codec, order, system, concern, key);
    UpdatesAreLast(steps, codec, concern, key);
    PairsHold(m, order, sk);
    forall i | LastLeft(steps, codec, concern, key, i)
      ensures exists x :: x in s && IsUpdateOf(x, system, steps[i], codec)
    {
      var x := m[sk].(system := system);
      assert x in Pairs(m, order);
      assert x in s && IsUpdateOf(x, system, steps[i], codec);
    }
  }

  /** However the map is walked, a completed transaction spawns, for each instance a PROCESS
      step leaves something to store for, exactly one primary and one secondary UPDATE_ASYNC,
      made of the last such step, and for other instances none; before them, in order, comes
      one secondary step per STORAGE create, update or delete and nothing else. */
  lemma CompletionFanout<B>(steps: seq<Step<B>>, codec: Codec<B>, order: seq<string>, concern: string, key: string)
    requires AllOk(steps) && PlainConcerns(steps) && NoUnderscore(concern)
    requires Enumerates(order, Updates(steps, codec).Keys)
    ensures var s := SpawnedSteps(steps, codec, order);
            && CopiesThenUpdates(steps, codec, s, |order|)
            && UpdatedOnce(steps, codec, s, Storage, concern, key)
            && UpdatedOnce(steps, codec, s, StorageScnd, concern, key)
  {
    UpdatesBehind(steps, codec, order);
    UpdateHeld(steps, codec, order, Storage, concern, key);
    UpdateHeld(steps, codec, order, StorageScnd, concern, key);
  }

  lemma EntryMadeOfLast<B>(steps: seq<Step<B>>, codec: Codec<B>, k: string, system: System)
    requires PlainConcerns(steps) && k in Updates(steps, codec) && IsStorageSystem(system)
    ensures MadeOfLast(steps, codec, Updates(steps, codec)[k].(system := system))
  {
    var u := Updates(steps, codec)[k];
    UpdatesShape(steps, codec);
    var j :| 0 <= j < |steps| && steps[j].concern == u.concern;
    UpdatesAreLast(steps, codec, u.concern, u.key);
    var i :| LastLeft(steps, codec, u.concern, u.key, i);
    assert IsUpdateOf(u, Storage, steps[i], codec);
    assert IsUpdateOf(u.(system := system), system, steps[i], codec);
  }

  lemma UpdatesBehind<B>(steps: seq<Step<B>>, codec: Codec<B>, order: seq<string>)
    requires AllOk(steps) && PlainConcerns(steps) && Enumerates(order, Updates(steps, codec).Keys)
    ensures CopiesThenUpdates(steps, codec, SpawnedSteps(steps, codec, order), |order|)
  {
    var m, s, n := Updates(steps, codec), SpawnedSteps(steps, codec, order), |Secondary(steps)|;
    var at := SecondaryCopies(steps);
    PairsHold(m, order, "");
    assert s[..n] == Secondary(steps);
    forall l | n <= l < |s| ensures MadeOfLast(steps, codec, s[l]) {
      assert s[l] == Pairs(m, order)[l - n];
      var k := PairAt(m, order, l - n);
      UpdatesShape(steps, codec);
      EntryMadeOfLast(steps, codec, k, s[l].system);
    }
  }

  lemma {:induction false} PairsHold<B>(updates: map<string, Step<B>>, order: seq<string>, sk: string)
    requires forall i :: 0 <= i < |order| ==> order[i] in updates
    ensures |Pairs(updates, order)| == 2 * |order|
    ensures sk in order ==> updates[sk] in Pairs(updates, order)
                            && updates[sk].(system := StorageScnd) in Pairs(updates, order)
    decreases |order|
  {
    if order != [] {
      PairsHold(updates, order[1..], sk);
      var ps := Pairs(updates, order);
      assert ps[0] == updates[order[0]] && ps[1] == updates[order[0]].(system := StorageScnd);
      assert ps[2..] == Pairs(updates, order[1..]);
      assert forall x :: x in ps[2..] ==> x in ps;
    }
  }

  lemma {:induction false} PairAt<B>(updates: map<string, Step<B>>, order: seq<string>, l: nat) returns (k: string)
    requires (forall i :: 0 <= i < |order| ==> order[i] in updates) && l < |Pairs(updates, order)|
    ensures k in order && (Pairs(updates, order)[l] == updates[k]
                           || Pairs(updates, order)[l] == updates[k].(system := StorageScnd))
    decreases |order|
  {
    var two := [updates[order[0]], updates[order[0]].(system := StorageScnd)];
    assert Pairs(updates, order) == two + Pairs(updates, order[1..]);
    if l < 2 {
      k := order[0];
    } else {
      k := PairAt(updates, order[1..], l - 2);
    }
  }

  // ---------- finished steps along a run ----------

  /** Every step was let in by a consumer of its concern: it has an offset, and a key unless it
      needs none. */
  predicate LetIn<B>(steps: seq<Step<B>>, names: set<string>) {
    forall i :: 0 <= i < |steps| ==>
      steps[i].concern in names && steps[i].cmpdOffset.Some? && (steps[i].key != "" || IsKeylessStep(steps[i]))
  }

  lemma NamedPlain<B>(steps: seq<Step<B>>, names: set<string>)
    requires LetIn(steps, names) && forall n :: n in names ==> IsValidName(n)
    ensures PlainConcerns(steps)
  {
    forall i | 0 <= i < |steps| ensures NoUnderscore(steps[i].concern) {
      ValidNamePlain(steps[i].concern);
    }
  }

  lemma AdvanceLetsIn<B>(txn: Txn<B>, v: Visit<B>, names: set<string>)
    requires InFlight(txn) && FreshSteps(v.outcome.addSteps) && v.topic.concern in names
    requires LetIn(txn.forwardSteps[..txn.currentStepIdx], names)
    ensures var f := Advance(txn, v);
            && InRange(f.txn)
            && (f.Forwarded? ==> LetIn(f.txn.forwardSteps[..f.txn.currentStepIdx], names))
            && (f.Completed? ==> LetIn(f.txn.forwardSteps, names))
  {
    AdvanceLawful(txn, v);
    var n, f := txn.currentStepIdx, Advance(txn, v);
    if Admit(txn, v.topic, v.off, v.insts).Admitted? && !f.Failed? {
      StampedInFlight(txn, v.topic, v.off);
      SettledAt(Stamped(txn, v.topic, v.off), v.off, Admit(txn, v.topic, v.off, v.insts).inst, v.outcome, v.produceOk);
      OneMoreIn(f.txn.forwardSteps, n, names);
    }
  }

  lemma OneMoreIn<B>(steps: seq<Step<B>>, n: nat, names: set<string>)
    requires n < |steps| && LetIn(steps[..n], names) && LetIn([steps[n]], names)
    ensures LetIn(steps[..n + 1], names) && (|steps| == n + 1 ==> LetIn(steps, names))
  {
    assert [steps[n]][0] == steps[n];
    assert steps[..n + 1] == steps[..n] + [steps[n]];
    assert |steps| == n + 1 ==> steps[..n + 1] == steps;
  }

  lemma SettledAt<B>(t: Txn<B>, off: CompoundOffset, inst: Option<B>, outcome: Outcome<B>, produceOk: bool)
    requires InFlight(t) && FreshSteps(outcome.addSteps) && !Finish(t, off, inst, outcome, produceOk).Failed?
    ensures var f, n := Finish(t, off, inst, outcome, produceOk), t.currentStepIdx;
            && n < |f.txn.forwardSteps|
            && f.txn.forwardSteps[n] == Current(t).(result := f.txn.forwardSteps[n].result,
                                                    instance := f.txn.forwardSteps[n].instance)
            && (if f.Completed? then |f.txn.forwardSteps| == n + 1 else f.txn.currentStepIdx == n + 1)
  {
    FinishShape(t, off, inst, outcome);
  }

  lemma {:induction false} RunLetsIn<B>(txns: seq<Txn<B>>, visits: seq<Visit<B>>, j: nat, names: set<string>)
    requires IsRun(txns, visits) && InFlight(txns[0]) && txns[0].currentStepIdx == 0 && j < |txns|
    requires forall i :: 0 <= i < |visits| ==> visits[i].topic.concern in names
    ensures InFlight(txns[j]) && LetIn(txns[j].forwardSteps[..txns[j].currentStepIdx], names)
    decreases j
  {
    RunKeepsPrefix(txns, visits, 0, j);
    if j > 0 {
      RunLetsIn(txns, visits, j - 1, names);
      AdvanceLetsIn(txns[j - 1], visits[j - 1], names);
    }
  }

  /** The fan-out of every transaction that a run over the topics of a platform, whose concern
      names are all valid, completes. Every finished step has an offset, so what is spawned
      has. */
  lemma RunFanout<B>(txns: seq<Txn<B>>, visits: seq<Visit<B>>, last: Visit<B>, codec: Codec<B>, order: seq<string>,
                     names: set<string>, concern: string, key: string)
    requires IsRun(txns, visits) && InFlight(txns[0]) && txns[0].currentStepIdx == 0
    requires FreshSteps(last.outcome.addSteps) && last.topic.concern in names && concern in names
    requires forall i :: 0 <= i < |visits| ==> visits[i].topic.concern in names
    requires forall n :: n in names ==> IsValidName(n)
    ensures InRange(txns[|visits|])
    ensures var f := Advance(txns[|visits|], last);
            f.Completed? && Enumerates(order, Updates(f.txn.forwardSteps, codec).Keys) ==>
              && AllOk(f.txn.forwardSteps) && LetIn(f.txn.forwardSteps, names)
              && var s := SpawnedSteps(f.txn.forwardSteps, codec, order);
                 && CopiesThenUpdates(f.txn.forwardSteps, codec, s, |order|)
                 && UpdatedOnce(f.txn.forwardSteps, codec, s, Storage, concern, key)
                 && UpdatedOnce(f.txn.forwardSteps, codec, s, StorageScnd, concern, key)
                 && forall m :: 0 <= m < |s| ==> s[m].cmpdOffset.Some?
  {
    RunLetsIn(txns, visits, |visits|, names);
    AdvanceLetsIn(txns[|visits|], last, names);
    AdvanceLawful(txns[|visits|], last);
    var f := Advance(txns[|visits|], last);
    if f.Completed? && Enumerates(order, Updates(f.txn.forwardSteps, codec).Keys) {
      NamedPlain(f.txn.forwardSteps, names);
      ValidNamePlain(concern);
      CompletionFanout(f.txn.forwardSteps, codec, order, concern, key);
      SpawnedHaveOffsets(f.txn.forwardSteps, codec, SpawnedSteps(f.txn.forwardSteps, codec, order), |order|, names);
    }
  }

  lemma SpawnedHaveOffsets<B>(steps: seq<Step<B>>, codec: Codec<B>, s: seq<Step<B>>, n: nat, names: set<string>)
    requires AllOk(steps) && LetIn(steps, names) && CopiesThenUpdates(steps, codec, s, n)
    ensures forall m :: 0 <= m < |s| ==> s[m].cmpdOffset.Some?
  {
    var copies := s[..|s| - 2 * n];
    var at :| WriteIndices(steps, at) && CopiesAt(steps, at, copies);
    forall m | 0 <= m < |s| ensures s[m].cmpdOffset.Some? {
      if m < |copies| {
        assert copies[m] == s[m] && at[m] in at;
      }
    }
  }

  // ---------- and no further ----------

  /** Whatever the cache holds, a spawned step with a key reaches its handler as it is when it
      has an offset, and is an error when it has none. */
  lemma SpawnedAdmission<B>(id: string, parent: string, step: Step<B>, off: CompoundOffset, insts: map<string, B>)
    requires id != "" && IsStorageSystem(step.system) && step.result.None? && step.key != ""
    ensures var t := SpawnedTxn(id, parent, step);
            && InFlight(t) && Current(t) == step && Stamped(t, Topic(step.concern, step.system), off) == t
            && Admit(t, Topic(step.concern, step.system), off, insts) ==
                 if step.cmpdOffset.Some? then Admitted(None) else Rejected(Internal)
  {
    var t := SpawnedTxn(id, parent, step);
    assert t.forwardSteps[0 := step] == t.forwardSteps;
  }

  predicate IsSpawnedStep<B>(step: Step<B>) {
    step.result.None? && (step.system.StorageScnd? || (step.system.Storage? && step.command.UpdateAsync?))
  }

  /** A spawned transaction ends at its first visit, whose handler adds nothing, and spawns
      nothing itself. */
  lemma SpawnedSpawnNothing<B>(id: string, parent: string, step: Step<B>, v: Visit<B>, codec: Codec<B>)
    requires id != "" && IsSpawnedStep(step) && v.outcome.addSteps == []
    ensures var f := Advance(SpawnedTxn(id, parent, step), v);
            && !f.Forwarded?
            && (f.Completed? ==> AllOk(f.txn.forwardSteps) && Secondary(f.txn.forwardSteps) == []
                                 && Updates(f.txn.forwardSteps, codec) == map[])
  {
    var t := SpawnedTxn(id, parent, step);
    var f := Advance(t, v);
    if f.Completed? {
      var s := f.txn.forwardSteps;
      assert |s| == 1 && s[0].system == step.system && s[0].command == step.command;
      assert s[1..] == [] && s[..0] == [];
    }
  }
}
