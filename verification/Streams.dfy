/**
 Per-key order from a managed producer to a consumer: the key's partition
 (pkg/rkcy/hash_func.go), the producer loop with its pauses
 (pkg/stream/managed_producer.go), the in-memory partitions (pkg/stream/offline/stream.go)
 and the consumer that cycles over its partitions (pkg/stream/offline/offline_consumer.go).
 */
module Streams {
  import opened Wrappers
  import opened Seqs

  type Key = seq<bv8>

  datatype Message<V> = Message(key: Key, value: V)

  // ---------- the partition of a key ----------

  const FNV_OFFSET := 14695981039346656037
  const FNV_PRIME := 1099511628211
  const TWO64 := 0x1_0000_0000_0000_0000

  /** Multiply, then exclusive-or the byte into the lowest eight bits. */
  function FnvStep(h: int, b: bv8): int {
    var m := (h * FNV_PRIME) % TWO64;
    m - m % 256 + (((m % 256) as bv8) ^ b) as int
  }

  /** 64-bit FNV-1. */
  function Fnv64(data: Key): int {
    if data == [] then FNV_OFFSET else var n := |data| - 1; FnvStep(Fnv64(data[..n]), data[n])
  }

  /** Two published values of the function, of no bytes and of "a". */
  lemma FnvKnown()
    ensures Fnv64([]) == 0xcbf2_9ce4_8422_2325 && Fnv64([0x61]) == 0xaf63_bd4c_8601_b7be
  {
    var m := 0xaf63_bd4c_8601_b7df;
    assert FNV_OFFSET * FNV_PRIME == 875948729822 * TWO64 + m;
    assert (FNV_OFFSET * FNV_PRIME) % TWO64 == m;
    assert (0xdf as bv8 ^ 0x61) as int == 0xbe;
    assert [0x61 as bv8][..0] == [];
  }

  function PartitionOf(key: Key, count: int): (p: int)
    requires count > 0
    ensures 0 <= p < count
  {
    Fnv64(key) % count
  }

  /** The shared hasher: reset, write, read off. */
  class Fnv64HashFunc {
    var state: int

    constructor () { state := FNV_OFFSET; }

    method Hash(val: Key, count: int) returns (partition: int)
      requires count > 0
      modifies this
      ensures partition == PartitionOf(val, count)
    {
      state := FNV_OFFSET;
      for i := 0 to |val|
        invariant state == Fnv64(val[..i])
      {
        assert val[..i + 1][..i] == val[..i];
        state := FnvStep(state, val[i]);
      }
      assert val[..|val|] == val;
      partition := state % count;
    }
  }

  // ---------- partitions ----------

  /** A topic: one log per partition; a message's offset is its index. */
  type Logs<V> = seq<seq<V>>

  class Partition<V(0)> {
    var messages: seq<V>

    constructor ()
      ensures messages == []
    {
      messages := [];
    }

    method Produce(msg: V) returns (offset: int)
      modifies this
      ensures offset == |old(messages)| && messages == old(messages) + [msg]
    {
      offset := |messages|;
      messages := messages + [msg];
    }

    method Len() returns (n: int)
      ensures n == |messages|
    {
      n := |messages|;
    }

    method GetMessage(offset: int) returns (r: Option<V>)
      ensures r == MessageAt(messages, offset)
    {
      if offset < 0 { return None; }
      if offset < |messages| { return Some(messages[offset]); }
      r := None;
    }
  }

  function MessageAt<V>(log: seq<V>, offset: int): Option<V> {
    if 0 <= offset < |log| then Some(log[offset]) else None
  }

  // ---------- the producer ----------

  /** `sent` is every message ever handed to Produce, in order; `waiting` those the loop has
      not taken from the channel. */
  datatype Producer<V> = Producer(paused: bool, sent: seq<Message<V>>, waiting: seq<Message<V>>, logs: Logs<Message<V>>)

  datatype Event<V> =
    | Send(msg: Message<V>)
    | Pause(paused: bool)
    | Tick                    // a ping, or a platform update that changes nothing here
    | Take                    // the loop takes the next message

  predicate Enabled<V>(s: Producer<V>, e: Event<V>) { e.Take? ==> !s.paused && s.waiting != [] }

  function Next<V>(s: Producer<V>, e: Event<V>): Producer<V>
    requires Enabled(s, e) && s.logs != []
  {
    match e
    case Send(msg) => s.(sent := s.sent + [msg], waiting := s.waiting + [msg])
    case Pause(p) => s.(paused := p)
    case Tick => s
    case Take =>
      var msg := s.waiting[0];
      var p := PartitionOf(msg.key, |s.logs|);
      s.(waiting := s.waiting[1..], logs := s.logs[p := s.logs[p] + [msg]])
  }

  /** The producer as it runs; each turn of its loop is one event. */
  class ManagedProducer<V(0)> {
    var paused: bool
    var produceCh: seq<Message<V>>
    var logs: Logs<Message<V>>
    ghost var sent: seq<Message<V>>
    const hashFunc: Fnv64HashFunc

    constructor (count: nat)
      ensures State() == Fresh(count) && fresh(hashFunc)
    {
      paused, produceCh, logs, sent := false, [], seq(count, _ => []), [];
      hashFunc := new Fnv64HashFunc();
    }

    ghost function State(): Producer<V>
      reads this
    {
      Producer(paused, sent, produceCh, logs)
    }

    method Produce(msg: Message<V>)
      requires logs != []
      modifies this
      ensures State() == Next(old(State()), Send(msg))
    {
      produceCh := produceCh + [msg];
      sent := sent + [msg];
    }

    method SetPaused(b: bool)
      requires logs != []
      modifies this
      ensures State() == Next(old(State()), Pause(b))
    {
      paused := b;
    }

    /** The loop does not read from the channel while it is paused. */
    method TakeMessage()
      requires logs != []
      modifies this, hashFunc
      ensures State() == if Enabled(old(State()), Take) then Next(old(State()), Take) else old(State())
    {
      if paused || produceCh == [] { return; }
      var msg := produceCh[0];
      produceCh := produceCh[1..];
      var partition := hashFunc.Hash(msg.key, |logs|);
      logs := logs[partition := logs[partition] + [msg]];
    }
  }

  /** The messages of one key. */
  function Of<V>(msgs: seq<Message<V>>, key: Key): seq<Message<V>> {
    if msgs == [] then []
    else var n := |msgs| - 1; Of(msgs[..n], key) + if msgs[n].key == key then [msgs[n]] else []
  }

  /** What has been sent for a key is in its partition or waiting, in order, and nowhere else. */
  ghost predicate KeyInOrder<V>(s: Producer<V>, key: Key)
    requires s.logs != []
  {
    && Of(s.sent, key) == Of(s.logs[PartitionOf(key, |s.logs|)], key) + Of(s.waiting, key)
    && forall p :: 0 <= p < |s.logs| && p != PartitionOf(key, |s.logs|) ==> Of(s.logs[p], key) == []
  }

  lemma OfAppend<V>(msgs: seq<Message<V>>, msg: Message<V>, key: Key)
    ensures Of(msgs + [msg], key) == Of(msgs, key) + if msg.key == key then [msg] else []
  {
    assert (msgs + [msg])[..|msgs|] == msgs;
  }

  lemma {:induction false} OfFirst<V>(msgs: seq<Message<V>>, key: Key)
    requires msgs != []
    ensures Of(msgs, key) == (if msgs[0].key == key then [msgs[0]] else []) + Of(msgs[1..], key)
    decreases |msgs|
  {
    var n := |msgs| - 1;
    if n > 0 {
      OfFirst(msgs[..n], key);
      assert msgs[..n][1..] == msgs[1..][..n - 1] && msgs[1..][n - 1] == msgs[n];
      Assoc(if msgs[0].key == key then [msgs[0]] else [], Of(msgs[1..][..n - 1], key),
            if msgs[n].key == key then [msgs[n]] else []);
    } else {
      assert msgs[..0] == [] && msgs[1..] == [];
    }
  }

  lemma NextKeepsOrder<V>(s: Producer<V>, e: Event<V>, key: Key)
    requires s.logs != [] && Enabled(s, e) && KeyInOrder(s, key)
    ensures |Next(s, e).logs| == |s.logs| && KeyInOrder(Next(s, e), key)
  {
    var p := PartitionOf(key, |s.logs|);
    match e
    case Send(msg) =>
      OfAppend(s.sent, msg, key);
      OfAppend(s.waiting, msg, key);
      Assoc(Of(s.logs[p], key), Of(s.waiting, key), if msg.key == key then [msg] else []);
    case Take =>
      var msg := s.waiting[0];
      OfFirst(s.waiting, key);
      OfAppend(s.logs[PartitionOf(msg.key, |s.logs|)], msg, key);
      Assoc(Of(s.logs[p], key), if msg.key == key then [msg] else [], Of(s.waiting[1..], key));
      assert Of(s.logs[p], key) + [] == Of(s.logs[p], key);
      assert [] + Of(s.waiting[1..], key) == Of(s.waiting[1..], key);
    case _ =>
  }

  function Fresh<V>(count: nat): Producer<V> { Producer(false, [], [], seq(count, _ => [])) }

  ghost predicate IsRun<V>(states: seq<Producer<V>>, events: seq<Event<V>>, count: nat) {
    && count > 0 && |states| == |events| + 1 && states[0] == Fresh(count)
    && forall i :: 0 <= i < |events| ==> states[i].logs != [] && Enabled(states[i], events[i])
                                         && states[i + 1] == Next(states[i], events[i])
  }

  /** In every run, with any pauses: the messages of a key sit in one partition, in the order
      they were sent, without gap or repetition, the rest of them still waiting. */
  lemma {:induction false} PerKeyFifo<V>(states: seq<Producer<V>>, events: seq<Event<V>>, count: nat, n: nat, key: Key)
    requires IsRun(states, events, count) && n < |states|
    ensures |states[n].logs| == count && KeyInOrder(states[n], key)
    ensures Of(states[n].logs[PartitionOf(key, count)], key) <= Of(states[n].sent, key)
    ensures states[n].waiting == [] ==> Of(states[n].logs[PartitionOf(key, count)], key) == Of(states[n].sent, key)
    decreases n
  {
    if n > 0 {
      PerKeyFifo(states, events, count, n - 1, key);
      NextKeepsOrder(states[n - 1], events[n - 1], key);
    }
  }

  // ---------- the consumer ----------

  datatype Assigned = Assigned(topic: string, partition: int)

  datatype Stored = Ok | Error | Panic

  /** What ReadMessage returns; an empty assignment is divided by. */
  datatype Reading<V> = Got(value: V) | TimedOut | NoAssignment | DividesByZero

  /** Whose turn it is. */
  function Turn(count: nat, n: nat): (i: nat)
    requires n > 0
    ensures i < n
  {
    count % n
  }

  class OfflineConsumer<V(0)> {
    var readCount: nat
    var isAssigned: bool
    var parts: seq<Partition<V>>
    var names: seq<Assigned>
    var offsets: seq<int>
    ghost var starts: seq<int>
    ghost var read: seq<seq<V>> // what has been read of each assignment

    ghost predicate Valid()
      reads this, parts
    {
      && |parts| == |names| == |offsets| == |starts| == |read| && (!isAssigned ==> parts == [])
      && forall i :: 0 <= i < |parts| ==> GapFree(parts[i].messages, starts[i], offsets[i], read[i])
    }

    constructor ()
      ensures Valid() && parts == [] && !isAssigned
    {
      isAssigned := false;
      readCount, parts, names, offsets, starts, read := 0, [], [], [], [], [];
    }

    /** Assignment at given offsets, the special ones resolved. */
    method Assign(parts: seq<Partition<V>>, names: seq<Assigned>, offsets: seq<int>)
      requires |parts| == |names| == |offsets|
      modifies this
      ensures Valid() && this.parts == parts && this.names == names && this.offsets == offsets && starts == offsets
      ensures isAssigned && readCount == old(readCount) && forall i :: 0 <= i < |parts| ==> read[i] == []
    {
      isAssigned := true;
      this.parts, this.names, this.offsets, this.starts := parts, names, offsets, offsets;
      this.read := seq(|parts|, _ => []);
    }

    /** There is nothing to read from an assignment. */
    ghost predicate Silent(i: int)
      reads this, parts
      requires Valid()
    {
      0 <= i < |parts| ==> MessageAt(parts[i].messages, offsets[i]).None?
    }

    /** One turn of the loop in ReadMessage. */
    method Poll() returns (r: Option<V>)
      requires Valid() && parts != []
      modifies this
      ensures Valid() && parts == old(parts) && names == old(names) && starts == old(starts)
              && readCount == old(readCount) + 1 && isAssigned == old(isAssigned)
      ensures var i := Turn(readCount, |parts|);
              && r == MessageAt(parts[i].messages, old(offsets)[i])
              && offsets == (if r.Some? then old(offsets)[i := old(offsets)[i] + 1] else old(offsets))
              && read == (if r.Some? then old(read)[i := old(read)[i] + [r.value]] else old(read))
    {
      readCount := readCount + 1;
      var i := Turn(readCount, |parts|);
      r := parts[i].GetMessage(offsets[i]);
      if r.Some? {
        GapFreeNext(parts[i].messages, starts[i], offsets[i], read[i]);
        read := read[i := read[i] + [r.value]];
        offsets := offsets[i := offsets[i] + 1];
      }
    }

    /** ReadMessage, with time for `turns` turns. */
    method ReadMessage(turns: nat) returns (r: Reading<V>)
      requires Valid()
      modifies this
      ensures Valid() && parts == old(parts) && names == old(names) && starts == old(starts)
              && isAssigned == old(isAssigned)
      ensures r.NoAssignment? <==> !isAssigned
      ensures r.DividesByZero? <==> isAssigned && parts == [] && turns > 0
      ensures !r.Got? ==> offsets == old(offsets) && read == old(read)
      ensures r.TimedOut? ==> readCount == old(readCount) + turns
      ensures r.TimedOut? && turns >= |parts| ==>
                forall i :: 0 <= i < |parts| ==> MessageAt(parts[i].messages, offsets[i]).None?
      ensures r.Got? ==> exists i :: 0 <= i < |parts| && Some(r.value) == MessageAt(parts[i].messages, old(offsets)[i])
                                     && offsets == old(offsets)[i := old(offsets)[i] + 1]
                                     && read == old(read)[i := old(read)[i] + [r.value]]
    {
      if !isAssigned { return NoAssignment; }
      for t := 0 to turns
        invariant Valid() && parts == old(parts) && names == old(names) && starts == old(starts)
                  && offsets == old(offsets) && read == old(read) && isAssigned == old(isAssigned)
        invariant readCount == old(readCount) + t && (t > 0 ==> parts != [])
        invariant parts != [] ==> forall c: nat :: old(readCount) < c <= readCount ==> Silent(Turn(c, |parts|))
      {
        if parts == [] {
          readCount := readCount + 1;
          return DividesByZero;
        }
        var m := Poll();
        if m.Some? { return Got(m.value); }
      }
      r := TimedOut;
      if turns >= |parts| {
        forall i | 0 <= i < |parts| ensures MessageAt(parts[i].messages, offsets[i]).None? {
          var j := Cycle(old(readCount), |parts|, i);
          assert Silent(Turn(old(readCount) + j, |parts|));
        }
      }
    }

    /** StoreOffsets gives up unless the first assignment is the wanted one: it succeeds
        exactly when every wanted partition is the first assigned, and with wanted partitions
        and no assignment it dereferences nil. */
    method StoreOffsets(wanted: seq<Assigned>, to: seq<int>) returns (r: Stored)
      requires Valid() && |wanted| == |to|
      modifies this
      ensures Valid() && parts == old(parts) && names == old(names) && readCount == old(readCount)
              && isAssigned == old(isAssigned)
      ensures r == if wanted == [] then Ok
                   else if names == [] then Panic
                   else if forall i :: 0 <= i < |wanted| ==> wanted[i] == names[0] then Ok
                   else Error
      ensures offsets == if r.Ok? && wanted != [] then old(offsets)[0 := to[|to| - 1]] else old(offsets)
    {
      var found: seq<int> := [];
      for i := 0 to |wanted|
        invariant |found| == i
        invariant if names == [] then forall k :: 0 <= k < i ==> found[k] == -1
                  else forall k :: 0 <= k < i ==> found[k] == 0 && wanted[k] == names[0]
      {
        var at := -1;
        for j := 0 to |names|
          invariant at == -1 && j == 0
        {
          if names[j] == wanted[i] {
            at := j;
            break;
          }
          if at == -1 { return Error; }
        }
        found := found + [at];
      }
      for i := 0 to |wanted|
        invariant Valid() && parts == old(parts) && names == old(names) && readCount == old(readCount)
                  && isAssigned == old(isAssigned)
        invariant i > 0 ==> names != []
        invariant offsets == if i > 0 then old(offsets)[0 := to[i - 1]] else old(offsets)
      {
        if found[i] == -1 { return Panic; }
        // a new start: what is read from here on is gap-free again
        offsets := offsets[found[i] := to[i]];
        starts := starts[found[i] := to[i]];
        read := read[found[i] := []];
      }
      r := Ok;
    }
  }

  /** What was read from `start` on is the log from there up to `offset`. */
  ghost predicate GapFree<V>(log: seq<V>, start: int, offset: int, read: seq<V>) {
    || (read == [] && offset == start)
    || (0 <= start <= offset <= |log| && read == log[start..offset])
  }

  lemma GapFreeNext<V>(log: seq<V>, start: int, offset: int, read: seq<V>)
    requires GapFree(log, start, offset, read) && MessageAt(log, offset).Some?
    ensures GapFree(log, start, offset + 1, read + [log[offset]])
  {
    assert read == log[start..offset];
    assert log[start..offset + 1] == log[start..offset] + [log[offset]];
  }

  /** Appending to a partition keeps what its readers have read gap-free. */
  lemma GapFreeGrows<V>(log: seq<V>, more: seq<V>, start: int, offset: int, read: seq<V>)
    requires GapFree(log, start, offset, read)
    ensures GapFree(log + more, start, offset, read)
  {
    if 0 <= start <= offset <= |log| {
      assert (log + more)[start..offset] == log[start..offset];
    }
  }

  /** Among n consecutive turns each of n assignments gets one. */
  lemma Cycle(count: nat, n: nat, i: nat) returns (j: nat)
    requires i < n
    ensures 1 <= j <= n && Turn(count + j, n) == i
  {
    var c, q := (count + 1) % n, (count + 1) / n;
    assert count + 1 == q * n + c;
    if i >= c {
      j := i - c + 1;
      ModUnique(count + j, n, q, i);
    } else {
      j := i + n - c + 1;
      assert (q + 1) * n == q * n + n;
      ModUnique(count + j, n, q + 1, i);
    }
  }

  lemma ModUnique(x: nat, n: nat, q: nat, r: nat)
    requires r < n && x == q * n + r
    ensures x % n == r
  {
    var p, t := x / n, x % n;
    assert x == p * n + t;
    assert (q - p) * n == q * n - p * n && (p - q) * n == p * n - q * n;
    if q > p {
      AtLeast(q - p, n);
    } else if p > q {
      AtLeast(p - q, n);
    }
  }

  lemma AtLeast(a: nat, n: nat)
    requires a >= 1
    ensures a * n >= n
  {
    assert a * n == (a - 1) * n + n;
    assert (a - 1) * n >= 0;
  }

  // ---------- from producer to consumer ----------

  lemma {:induction false} OfCat<V>(a: seq<Message<V>>, b: seq<Message<V>>, key: Key)
    ensures Of(a + b, key) == Of(a, key) + Of(b, key)
    decreases |b|
  {
    if b == [] {
      assert a + b == a && Of(a, key) + [] == Of(a, key);
    } else {
      var n := |b| - 1;
      var last := if b[n].key == key then [b[n]] else [];
      assert a + b == a + b[..n] + [b[n]] && b == b[..n] + [b[n]];
      OfCat(a, b[..n], key);
      OfAppend(a + b[..n], b[n], key);
      Assoc(Of(a, key), Of(b[..n], key), last);
    }
  }

  ghost predicate IsSegment<T>(x: seq<T>, whole: seq<T>) {
    exists i, j :: 0 <= i <= j <= |whole| && whole[i..j] == x
  }

  lemma MiddleIsSegment<T>(a: seq<T>, x: seq<T>, b: seq<T>)
    ensures IsSegment(x, a + x + b)
  {
    assert (a + x + b)[|a|..|a| + |x|] == x;
  }

  /** What a consumer has read of a key's partition is, for that key, a segment of what was
      sent: in send order, from some message of the key on, without gap or repetition. */
  lemma ReadIsSentSegment<V>(states: seq<Producer<V>>, events: seq<Event<V>>, count: nat, n: nat, key: Key, start: int,
                             offset: int, read: seq<Message<V>>)
    requires IsRun(states, events, count) && n < |states| && |states[n].logs| == count
    requires GapFree(states[n].logs[PartitionOf(key, count)], start, offset, read)
    ensures IsSegment(Of(read, key), Of(states[n].sent, key))
  {
    PerKeyFifo(states, events, count, n, key);
    var log, w := states[n].logs[PartitionOf(key, count)], Of(states[n].waiting, key);
    if read == [] {
      MiddleIsSegment([], Of(read, key), Of(states[n].sent, key));
      assert [] + [] + Of(states[n].sent, key) == Of(states[n].sent, key);
    } else {
      var a, b := log[..start], log[offset..];
      assert log == a + read + b;
      OfCat(a, read, key);
      OfCat(a + read, b, key);
      Assoc(Of(a, key) + Of(read, key), Of(b, key), w);
      MiddleIsSegment(Of(a, key), Of(read, key), Of(b, key) + w);
    }
  }

  /** Of another partition it has read nothing for that key. */
  lemma ReadElsewhereIsNone<V>(states: seq<Producer<V>>, events: seq<Event<V>>, count: nat, n: nat, key: Key, p: nat,
                               start: int, offset: int, read: seq<Message<V>>)
    requires IsRun(states, events, count) && n < |states| && p < |states[n].logs| && p != PartitionOf(key, count)
    requires GapFree(states[n].logs[p], start, offset, read)
    ensures Of(read, key) == []
  {
    PerKeyFifo(states, events, count, n, key);
    if read != [] {
      var log := states[n].logs[p];
      assert log == log[..start] + read + log[offset..];
      OfCat(log[..start], read, key);
      OfCat(log[..start] + read, log[offset..], key);
    }
  }
}
