/**
 Substitution in program templates (substStr in pkg/rkcy/platform_def.go). The keys are
 replaced one after the other, in the order in which a Go map happens to give them. When
 every '@' of the template starts a key and no value contains '@', every order gives the
 same text: each key replaced by its value.
 */
module Substitution {
  /** strings.ReplaceAll for a key that is not empty. */
  function ReplaceAll(s: string, k: string, v: string): string
    requires k != ""
    decreases |s|
  {
    if s == "" then ""
    else if k <= s then v + ReplaceAll(s[|k|..], k, v)
    else [s[0]] + ReplaceAll(s[1..], k, v)
  }

  predicate IsKey(k: string) { |k| > 1 && k[0] == '@' && '@' !in k[1..] }

  /** Keys start with their only '@', and none is a prefix of another. */
  ghost predicate GoodKeys(keys: set<string>) {
    && (forall k :: k in keys ==> IsKey(k))
    && (forall a, b :: a in keys && b in keys && a <= b ==> a == b)
  }

  /** Every '@' starts a key. */
  ghost predicate Template(s: string, keys: set<string>) {
    forall i :: 0 <= i < |s| && s[i] == '@' ==> exists k :: k in keys && k <= s[i..]
  }

  // ---------- templates as tokens ----------

  datatype Token = Lit(c: char) | Var(key: string)

  ghost predicate GoodTokens(ts: seq<Token>, keys: set<string>) {
    forall i :: 0 <= i < |ts| ==> (ts[i].Lit? ==> ts[i].c != '@') && (ts[i].Var? ==> ts[i].key in keys)
  }

  /** The text in which the keys in `done` have been replaced. */
  ghost function Render(ts: seq<Token>, m: map<string, string>, done: set<string>): string
    requires done <= m.Keys
  {
    if ts == [] then ""
    else Piece(ts[0], m, done) + Render(ts[1..], m, done)
  }

  ghost function Piece(t: Token, m: map<string, string>, done: set<string>): string
    requires done <= m.Keys
  {
    match t case Lit(c) => [c] case Var(k) => if k in done then m[k] else k
  }

  /** A text without '@' is passed over. */
  lemma {:induction false} PassOver(x: string, rest: string, k: string, v: string)
    requires IsKey(k) && '@' !in x
    ensures ReplaceAll(x + rest, k, v) == x + ReplaceAll(rest, k, v)
    decreases |x|
  {
    if x == "" {
      assert x + rest == rest;
    } else {
      var s := x + rest;
      assert s[0] == x[0] && x[0] in x && !(k <= s);
      assert s[1..] == x[1..] + rest;
      PassOver(x[1..], rest, k, v);
      assert x == [x[0]] + x[1..];
    }
  }

  lemma PrefixOfEither(k: string, a: string, rest: string)
    requires k <= a + rest
    ensures k <= a || a <= k
  {
    if |k| <= |a| {
      assert forall i :: 0 <= i < |k| ==> k[i] == (a + rest)[i] == a[i];
    } else {
      assert forall i :: 0 <= i < |a| ==> a[i] == (a + rest)[i] == k[i];
    }
  }

  /** Another key is passed over. */
  lemma PassOverKey(other: string, rest: string, k: string, v: string, keys: set<string>)
    requires GoodKeys(keys) && k in keys && other in keys && k != other
    ensures ReplaceAll(other + rest, k, v) == other + ReplaceAll(rest, k, v)
  {
    var s := other + rest;
    if k <= s { PrefixOfEither(k, other, rest); }
    assert !(k <= s);
    assert s[0] == other[0] && s[1..] == other[1..] + rest;
    PassOver(other[1..], rest, k, v);
    assert other == [other[0]] + other[1..];
  }

  lemma ReplaceHere(k: string, rest: string, v: string)
    requires k != ""
    ensures ReplaceAll(k + rest, k, v) == v + ReplaceAll(rest, k, v)
  {
    var s := k + rest;
    assert k <= s && s[|k|..] == rest;
  }

  /** Replacing one more key. */
  lemma {:induction false} ReplaceOne(ts: seq<Token>, m: map<string, string>, done: set<string>, k: string)
    requires GoodKeys(m.Keys) && GoodTokens(ts, m.Keys) && done <= m.Keys && k in m && k !in done
    requires forall x :: x in m ==> '@' !in m[x]
    ensures ReplaceAll(Render(ts, m, done), k, m[k]) == Render(ts, m, done + {k})
    decreases |ts|
  {
    if ts != [] {
      var rest := Render(ts[1..], m, done);
      assert GoodTokens(ts[1..], m.Keys);
      ReplaceOne(ts[1..], m, done, k);
      match ts[0]
      case Lit(c) => PassOver([c], rest, k, m[k]);
      case Var(x) =>
        if x in done {
          PassOver(m[x], rest, k, m[k]);
        } else if x == k {
          ReplaceHere(k, rest, m[k]);
        } else {
          PassOverKey(x, rest, k, m[k], m.Keys);
        }
    }
  }

  /** A template is a list of tokens. */
  lemma {:induction false} Tokenize(s: string, m: map<string, string>) returns (ts: seq<Token>)
    requires GoodKeys(m.Keys) && Template(s, m.Keys)
    ensures GoodTokens(ts, m.Keys) && Render(ts, m, {}) == s
    decreases |s|
  {
    if s == "" { return []; }
    if s[0] == '@' {
      assert s[0..] == s;
      var k :| k in m.Keys && k <= s;
      var rest := s[|k|..];
      TemplateRest(s, |k|, m.Keys);
      var more := Tokenize(rest, m);
      ts := [Var(k)] + more;
      assert ts[1..] == more && s == k + rest;
    } else {
      TemplateRest(s, 1, m.Keys);
      var more := Tokenize(s[1..], m);
      ts := [Lit(s[0])] + more;
      assert ts[1..] == more && s == [s[0]] + s[1..];
    }
  }

  lemma TemplateRest(s: string, n: nat, keys: set<string>)
    requires n <= |s| && Template(s, keys)
    ensures Template(s[n..], keys)
  {
    forall i | 0 <= i < |s[n..]| && s[n..][i] == '@' ensures exists k :: k in keys && k <= s[n..][i..] {
      assert s[n + i] == '@' && s[n..][i..] == s[n + i..];
    }
  }

  // ---------- the loop ----------

  /** One order of the keys. */
  ghost function InOrder(s: string, order: seq<string>, m: map<string, string>): string
    requires forall i :: 0 <= i < |order| ==> order[i] in m && order[i] != ""
    decreases |order|
  {
    if order == [] then s else InOrder(ReplaceAll(s, order[0], m[order[0]]), order[1..], m)
  }

  lemma {:induction false} OrderRenders(ts: seq<Token>, m: map<string, string>, done: set<string>, order: seq<string>)
    requires GoodKeys(m.Keys) && GoodTokens(ts, m.Keys) && done <= m.Keys && forall x :: x in m ==> '@' !in m[x]
    requires forall i :: 0 <= i < |order| ==> order[i] in m && order[i] !in done && order[i] != ""
    requires forall i, j :: 0 <= i < j < |order| ==> order[i] != order[j]
    ensures InOrder(Render(ts, m, done), order, m) == Render(ts, m, done + set k | k in order)
    decreases |order|
  {
    if order == [] {
      assert done + (set k | k in order) == done;
    } else {
      ReplaceOne(ts, m, done, order[0]);
      OrderRenders(ts, m, done + {order[0]}, order[1..]);
      assert done + {order[0]} + (set k | k in order[1..]) == done + set k | k in order;
    }
  }

  /** Two orders of the same keys give the same text. */
  lemma OrderIndependent(s: string, m: map<string, string>, a: seq<string>, b: seq<string>)
    requires GoodKeys(m.Keys) && Template(s, m.Keys) && forall x :: x in m ==> '@' !in m[x]
    requires (set k | k in a) == m.Keys == set k | k in b
    requires (forall i, j :: 0 <= i < j < |a| ==> a[i] != a[j]) && (forall i, j :: 0 <= i < j < |b| ==> b[i] != b[j])
    ensures (forall i :: 0 <= i < |a| ==> a[i] in m && a[i] != "")
            && (forall i :: 0 <= i < |b| ==> b[i] in m && b[i] != "")
    ensures InOrder(s, a, m) == InOrder(s, b, m)
  {
    forall i | 0 <= i < |a| ensures a[i] in m && a[i] != "" { assert a[i] in set k | k in a; }
    forall i | 0 <= i < |b| ensures b[i] in m && b[i] != "" { assert b[i] in set k | k in b; }
    var ts := Tokenize(s, m);
    OrderRenders(ts, m, {}, a);
    OrderRenders(ts, m, {}, b);
    assert {} + (set k | k in a) == {} + set k | k in b;
  }

  /** `ts` reads `s` as a template for the keys of `m`, whose values have no '@'. */
  ghost predicate Reads(ts: seq<Token>, s: string, m: map<string, string>) {
    GoodKeys(m.Keys) && GoodTokens(ts, m.Keys) && Render(ts, m, {}) == s && forall x :: x in m ==> '@' !in m[x]
  }

  /** substStr: the map gives its keys in any order. */
  method SubstStr(s: string, m: map<string, string>, ghost ts: seq<Token>) returns (r: string)
    requires forall k :: k in m ==> k != ""
    ensures Reads(ts, s, m) ==> r == Render(ts, m, m.Keys)
  {
    r := s;
    var todo := m.Keys;
    assert m.Keys - todo == {};
    while todo != {}
      invariant todo <= m.Keys
      invariant Reads(ts, s, m) ==> r == Render(ts, m, m.Keys - todo)
      decreases |todo|
    {
      var k :| k in todo;
      if Reads(ts, s, m) {
        ReplaceOne(ts, m, m.Keys - todo, k);
        assert m.Keys - todo + {k} == m.Keys - (todo - {k});
      }
      r := ReplaceAll(r, k, m[k]);
      todo := todo - {k};
    }
    assert m.Keys - {} == m.Keys;
  }
}
