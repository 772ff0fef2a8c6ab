/**
 Many transactions in the stream at once. With produced messages not lost and no message
 delivered twice, each transaction is at every moment in exactly one place: once in the
 stream, once on the complete topic, or once on the error topic with nothing more to come;
 and it is answered exactly once if it asked for a response.
 */
module ApecsSystems {
  import opened ApecsTxns
  import opened ApecsRunners
  import opened ApecsInvariants

  datatype Sys<B> = Sys(
    registered: map<string, Txn<B>>, // every transaction ever started, as it was started
    stream: seq<Txn<B>>,
    complete: seq<Txn<B>>,
    error: seq<Txn<B>>,              // error records of transactions that end there
    bailouts: seq<Txn<B>>,           // error records of BAILOUT transactions that are retried
    responses: seq<Txn<B>>)

  datatype Event<B> =
    | Submit(txn: Txn<B>)
    | Deliver(i: nat, visit: Visit<B>, spawned: seq<Txn<B>>)
    | CancelTxn(i: nat)

  function Remove<T>(s: seq<T>, i: nat): seq<T>
    requires i < |s|
  {
    s[..i] + s[i + 1..]
  }

  /** New transactions with new ids; what they spawn is limited to their own completion. */
  predicate Startable<B>(registered: map<string, Txn<B>>, txns: seq<Txn<B>>) {
    && (forall i :: 0 <= i < |txns| ==> InFlight(txns[i]) && txns[i].id !in registered)
    && (forall i, j :: 0 <= i < j < |txns| ==> txns[i].id != txns[j].id)
  }

  function Register<B>(registered: map<string, Txn<B>>, txns: seq<Txn<B>>): map<string, Txn<B>>
    decreases |txns|
  {
    if txns == [] then registered else Register(registered[txns[0].id := txns[0]], txns[1..])
  }

  predicate Enabled<B>(s: Sys<B>, e: Event<B>) {
    match e
    case Submit(txn) => Startable(s.registered, [txn])
    case Deliver(i, v, spawned) =>
      i < |s.stream| && InRange(s.stream[i]) && FreshSteps(v.outcome.addSteps) && Startable(s.registered, spawned)
    case CancelTxn(i) => i < |s.stream| && InRange(s.stream[i])
  }

  function FailInto<B>(s: Sys<B>, i: nat, txn: Txn<B>, code: Code): Sys<B>
    requires i < |s.stream|
  {
    if txn.uponError.Bailout? && IsBailoutableCode(code)
    then s.(bailouts := s.bailouts + [txn], responses := s.responses + Response(txn)) // the message is read again
    else s.(stream := Remove(s.stream, i), error := s.error + [txn], responses := s.responses + Response(txn))
  }

  function Next<B>(s: Sys<B>, e: Event<B>): Sys<B>
    requires Enabled(s, e)
  {
    match e
    case Submit(txn) => s.(registered := Register(s.registered, [txn]), stream := s.stream + [txn])
    case Deliver(i, v, spawned) =>
      (match Advance(s.stream[i], v)
       case Forwarded(t) => s.(stream := Remove(s.stream, i) + [t])
       case Completed(t) =>
         s.(registered := Register(s.registered, spawned), stream := Remove(s.stream, i) + spawned,
            complete := s.complete + [t], responses := s.responses + Response(t))
       case Failed(t, code) => FailInto(s, i, t, code))
    case CancelTxn(i) =>
      // a cancelled message is not advanced, so it is never retried
      var t := Cancel(s.stream[i]).txn;
      s.(stream := Remove(s.stream, i), error := s.error + [t], responses := s.responses + Response(t))
  }

  function Count<B>(s: seq<Txn<B>>, id: string): nat {
    if s == [] then 0 else (if s[0].id == id then 1 else 0) + Count(s[1..], id)
  }

  lemma {:induction false} CountAppend<B>(a: seq<Txn<B>>, b: seq<Txn<B>>, id: string)
    ensures Count(a + b, id) == Count(a, id) + Count(b, id)
    decreases |a|
  {
    if a == [] {
      assert a + b == b;
    } else {
      assert (a + b)[1..] == a[1..] + b;
      CountAppend(a[1..], b, id);
    }
  }

  lemma CountOne<B>(t: Txn<B>, id: string)
    ensures Count([t], id) == if t.id == id then 1 else 0
    ensures Count(Response(t), id) == if t.id == id && t.responseTarget.Some? then 1 else 0
  {
    assert [t][1..] == [];
  }

  lemma CountRemove<B>(s: seq<Txn<B>>, i: nat, id: string)
    requires i < |s|
    ensures Count(s, id) == Count(Remove(s, i), id) + (if s[i].id == id then 1 else 0)
  {
    assert s == s[..i] + ([s[i]] + s[i + 1..]);
    CountAppend(s[..i], [s[i]] + s[i + 1..], id);
    CountAppend([s[i]], s[i + 1..], id);
    CountAppend(s[..i], s[i + 1..], id);
    CountOne(s[i], id);
  }

  lemma {:induction false} CountStartable<B>(registered: map<string, Txn<B>>, txns: seq<Txn<B>>, id: string)
    requires Startable(registered, txns)
    ensures Register(registered, txns).Keys >= registered.Keys
    ensures id in registered ==> Register(registered, txns)[id] == registered[id] && Count(txns, id) == 0
    ensures id in Register(registered, txns) <==> id in registered || Count(txns, id) == 1
    ensures Count(txns, id) <= 1
    ensures forall i :: 0 <= i < |txns| ==> txns[i].id in Register(registered, txns)
                                            && Register(registered, txns)[txns[i].id] == txns[i]
    decreases |txns|
  {
    if txns != [] {
      var r := registered[txns[0].id := txns[0]];
      assert Startable(r, txns[1..]);
      CountStartable(r, txns[1..], id);
      CountStartable(r, txns[1..], txns[0].id);
      forall i | 0 < i < |txns| ensures txns[i].id in Register(registered, txns)
          && Register(registered, txns)[txns[i].id] == txns[i] {
        assert txns[i] == txns[1..][i - 1];
      }
    }
  }

  // ---------- the invariant ----------

  ghost predicate Known<B>(s: Sys<B>, txns: seq<Txn<B>>) {
    forall i :: 0 <= i < |txns| ==>
      txns[i].id in s.registered && SameTransaction(s.registered[txns[i].id], txns[i])
  }

  ghost predicate OnePlace<B>(s: Sys<B>, id: string) {
    Count(s.stream, id) + Count(s.complete, id) + Count(s.error, id) == if id in s.registered then 1 else 0
  }

  ghost predicate Answered<B>(s: Sys<B>, id: string) {
    id in s.registered ==>
      && (!s.registered[id].uponError.Bailout? ==> Count(s.bailouts, id) == 0)
      && Count(s.responses, id) ==
         if s.registered[id].responseTarget.Some? then Count(s.complete,
                                                             id) + Count(s.error, id) + Count(s.bailouts, id) else 0
  }

  ghost predicate Inv<B>(s: Sys<B>) {
    && (forall i :: 0 <= i < |s.stream| ==> InFlight(s.stream[i]))
    && Known(s, s.stream)
    && (forall id: string :: OnePlace(s, id))
    && (forall id: string :: Answered(s, id))
    && (forall id: string :: id !in s.registered ==> Count(s.bailouts, id) == Count(s.responses, id) == 0)
  }

  function Empty<B>(): Sys<B> { Sys(map[], [], [], [], [], []) }

  lemma RemoveKeeps<B>(s: Sys<B>, i: nat)
    requires Inv(s) && i < |s.stream|
    ensures forall j :: 0 <= j < |Remove(s.stream, i)| ==> InFlight(Remove(s.stream, i)[j])
    ensures Known(s, Remove(s.stream, i))
  {
    var r := Remove(s.stream, i);
    forall j | 0 <= j < |r| ensures InFlight(r[j]) && r[j].id in s.registered
        && SameTransaction(s.registered[r[j].id], r[j]) {
      assert r[j] == s.stream[if j < i then j else j + 1];
    }
  }

  lemma StartKeeps<B>(s: Sys<B>, txns: seq<Txn<B>>)
    requires Inv(s) && Startable(s.registered, txns)
    ensures Inv(s.(registered := Register(s.registered, txns), stream := s.stream + txns))
  {
    var t := s.(registered := Register(s.registered, txns), stream := s.stream + txns);
    forall id: string ensures OnePlace(t, id) && Answered(t, id)
        && (id !in t.registered ==> Count(t.bailouts, id) == Count(t.responses, id) == 0) {
      CountStartable(s.registered, txns, id);
      CountAppend(s.stream, txns, id);
      assert OnePlace(s, id) && Answered(s, id);
    }
    forall i | 0 <= i < |t.stream| ensures InFlight(t.stream[i]) && t.stream[i].id in t.registered
        && SameTransaction(t.registered[t.stream[i].id], t.stream[i]) {
      CountStartable(s.registered, txns, t.stream[i].id);
      if i >= |s.stream| { assert t.stream[i] == txns[i - |s.stream|]; }
    }
  }

  lemma ForwardKeeps<B>(s: Sys<B>, i: nat, t: Txn<B>)
    requires Inv(s) && i < |s.stream| && InFlight(t) && SameTransaction(s.stream[i], t)
    ensures Inv(s.(stream := Remove(s.stream, i) + [t]))
  {
    var u := s.(stream := Remove(s.stream, i) + [t]);
    RemoveKeeps(s, i);
    forall id: string ensures OnePlace(u, id) && Answered(u, id) {
      assert OnePlace(s, id) && Answered(s, id);
      CountRemove(s.stream, i, id);
      CountAppend(Remove(s.stream, i), [t], id);
      CountOne(t, id);
    }
  }

  lemma EndKeeps<B>(s: Sys<B>, i: nat, t: Txn<B>, ok: bool)
    requires Inv(s) && i < |s.stream| && SameTransaction(s.stream[i], t)
    ensures Inv(s.(stream := Remove(s.stream, i), complete := s.complete + (if ok then [t] else []),
                   error := s.error + (if ok then [] else [t]), responses := s.responses + Response(t)))
  {
    var u := s.(stream := Remove(s.stream, i), complete := s.complete + (if ok then [t] else []),
                error := s.error + (if ok then [] else [t]), responses := s.responses + Response(t));
    RemoveKeeps(s, i);
    forall id: string ensures OnePlace(u, id) && Answered(u, id)
        && (id !in u.registered ==> Count(u.responses, id) == 0) {
      assert OnePlace(s, id) && Answered(s, id);
      CountRemove(s.stream, i, id);
      CountAppend(s.complete, if ok then [t] else [], id);
      CountAppend(s.error, if ok then [] else [t], id);
      CountAppend(s.responses, Response(t), id);
      CountOne(t, id);
    }
  }

  lemma BailoutKeeps<B>(s: Sys<B>, i: nat, t: Txn<B>)
    requires Inv(s) && i < |s.stream| && SameTransaction(s.stream[i], t) && t.uponError.Bailout?
    ensures Inv(s.(bailouts := s.bailouts + [t], responses := s.responses + Response(t)))
  {
    var u := s.(bailouts := s.bailouts + [t], responses := s.responses + Response(t));
    forall id: string ensures OnePlace(u, id) && Answered(u, id)
        && (id !in u.registered ==> Count(u.bailouts, id) == Count(u.responses, id) == 0) {
      assert OnePlace(s, id) && Answered(s, id);
      CountAppend(s.bailouts, [t], id);
      CountAppend(s.responses, Response(t), id);
      CountOne(t, id);
    }
  }

  lemma NextKeepsInv<B>(s: Sys<B>, e: Event<B>)
    requires Inv(s) && Enabled(s, e)
    ensures Inv(Next(s, e))
  {
    match e
    case Submit(txn) => StartKeeps(s, [txn]);
    case Deliver(i, v, spawned) =>
      AdvanceLawful(s.stream[i], v);
      var f := Advance(s.stream[i], v);
      if f.Forwarded? {
        ForwardKeeps(s, i, f.txn);
      } else if f.Completed? {
        EndKeeps(s, i, f.txn, true);
        var u := s.(stream := Remove(s.stream, i), complete := s.complete + [f.txn], error := s.error + [],
                    responses := s.responses + Response(f.txn));
        assert s.error + [] == s.error;
        StartKeeps(u, spawned);
      } else {
        if f.txn.uponError.Bailout? && IsBailoutableCode(f.code) {
          BailoutKeeps(s, i, f.txn);
        } else {
          EndKeeps(s, i, f.txn, false);
          assert s.complete + [] == s.complete;
        }
      }
    case CancelTxn(i) =>
      CancelLawful(s.stream[i]);
      EndKeeps(s, i, Cancel(s.stream[i]).txn, false);
      assert s.complete + [] == s.complete;
  }

  ghost predicate IsHistory<B>(states: seq<Sys<B>>, events: seq<Event<B>>) {
    && |states| == |events| + 1
    && states[0] == Empty()
    && forall i :: 0 <= i < |events| ==> Enabled(states[i], events[i]) && states[i + 1] == Next(states[i], events[i])
  }

  lemma {:induction false} HistoryKeepsInv<B>(states: seq<Sys<B>>, events: seq<Event<B>>, n: nat)
    requires IsHistory(states, events) && n < |states|
    ensures Inv(states[n])
    decreases n
  {
    if n > 0 {
      HistoryKeepsInv(states, events, n - 1);
      NextKeepsInv(states[n - 1], events[n - 1]);
    }
  }

  /** In every reachable state each started transaction is in exactly one place, and a
      transaction that does not bail out has been answered exactly once if it asked for a
      response and has left the stream, and not at all otherwise. */
  lemma SingleToken<B>(states: seq<Sys<B>>, events: seq<Event<B>>, n: nat, id: string)
    requires IsHistory(states, events) && n < |states| && id in states[n].registered
    ensures var s := states[n];
            && Count(s.stream, id) + Count(s.complete, id) + Count(s.error, id) == 1
            && (!s.registered[id].uponError.Bailout? ==>
                  && Count(s.bailouts, id) == 0
                  && Count(s.responses, id) ==
                     if s.registered[id].responseTarget.Some? then 1 - Count(s.stream, id) else 0)
  {
    HistoryKeepsInv(states, events, n);
    assert OnePlace(states[n], id) && Answered(states[n], id);
  }
}
