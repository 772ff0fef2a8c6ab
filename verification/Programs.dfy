/**
 The program templates of a platform and the keys of their programs (substStr and ProgKey in
 pkg/rkcy/platform_def.go).
 */
module Programs {
  import opened Seqs
  import opened Topics
  import opened PlatformDefs
  import opened Substitution

  // ---------- keys and values ----------

  const ORDER := ["@platform", "@environment", "@stream", "@admin_brokers", "@otelcol_endpoint", "@concern",
                  "@consumer_brokers", "@system", "@topic", "@partition"]

  ghost function Keys(): set<string> { set k | k in ORDER }

  /** What the runner is started with. */
  datatype Setting = Setting(platform: string, environment: string, stream: string, adminBrokers: string,
                             otelcol: string)

  function Values(st: Setting, concern: string, system: string, topic: string, brokers: string,
                  partition: nat): map<string, string> {
    map["@platform" := st.platform, "@environment" := st.environment, "@stream" := st.stream,
        "@admin_brokers" := st.adminBrokers, "@otelcol_endpoint" := st.otelcol, "@concern" := concern,
        "@consumer_brokers" := brokers, "@system" := system,
        "@topic" := topic, "@partition" := Decimal(partition)]
  }

  /** Keys of the right form, none a prefix of another. */
  ghost predicate GoodOrder(order: seq<string>) {
    && (forall i :: 0 <= i < |order| ==> IsKey(order[i]))
    && forall i, j :: 0 <= i < |order| && 0 <= j < |order| && order[i] <= order[j] ==> i == j
  }

  /** The second, third and fifth character tell the keys apart. */
  function Mark(i: nat): (char, char, char)
    requires i < 10
  {
    if i == 0 then ('p', 'l', 't')
    else if i == 1 then ('e', 'n', 'i')
    else if i == 2 then ('s', 't', 'e')
    else if i == 3 then ('a', 'd', 'i')
    else if i == 4 then ('o', 't', 'l')
    else if i == 5 then ('c', 'o', 'c')
    else if i == 6 then ('c', 'o', 's')
    else if i == 7 then ('s', 'y', 't')
    else if i == 8 then ('t', 'o', 'i')
    else ('p', 'a', 't')
  }

  predicate Marked(k: string, i: nat)
    requires i < 10
  {
    IsKey(k) && |k| > 4 && (k[1], k[2], k[4]) == Mark(i)
  }

  lemma FirstMarks()
    ensures Marked("@platform", 0) && Marked("@environment", 1) && Marked("@stream", 2) && Marked("@admin_brokers", 3)
            && Marked("@otelcol_endpoint", 4)
  {
  }

  lemma LastMarks()
    ensures Marked("@concern", 5) && Marked("@consumer_brokers", 6) && Marked("@system", 7) && Marked("@topic", 8)
            && Marked("@partition", 9)
  {
  }

  lemma KeyMark(i: nat)
    requires i < 10
    ensures Marked(ORDER[i], i)
  {
    FirstMarks();
    LastMarks();
  }

  lemma MarksDiffer(i: nat, j: nat)
    requires i < 10 && j < 10 && Mark(i) == Mark(j)
    ensures i == j
  {
  }

  lemma OrderGood()
    ensures GoodOrder(ORDER)
  {
    var order := ORDER;
    forall i | 0 <= i < |order| ensures IsKey(order[i]) { KeyMark(i); }
    forall i, j | 0 <= i < |order| && 0 <= j < |order| && order[i] <= order[j] ensures i == j {
      KeyMark(i);
      KeyMark(j);
      PrefixMarks(order[i], order[j]);
      MarksDiffer(i, j);
    }
  }

  lemma PrefixMarks(a: string, b: string)
    requires a <= b && |a| > 4
    ensures a[1] == b[1] && a[2] == b[2] && a[4] == b[4]
  {
  }

  lemma OrderKeysGood(order: seq<string>)
    requires GoodOrder(order)
    ensures GoodKeys(set k | k in order)
    ensures (forall i :: 0 <= i < |order| ==> order[i] != "") && forall i, j ::
              0 <= i < j < |order| ==> order[i] != order[j]
  {
    var keys := set k | k in order;
    forall k | k in keys ensures IsKey(k) {
      var i :| 0 <= i < |order| && order[i] == k;
    }
    forall a, b | a in keys && b in keys && a <= b ensures a == b {
      var i :| 0 <= i < |order| && order[i] == a;
      var j :| 0 <= j < |order| && order[j] == b;
      assert order[i] <= order[j];
    }
    forall i, j | 0 <= i < j < |order| ensures order[i] != order[j] {
      assert !(order[i] <= order[j]);
    }
  }

  /** The values of all keys, none with '@' or a space in it. */
  ghost predicate PlainValues(m: map<string, string>) {
    m.Keys == Keys() && forall k :: k in m ==> '@' !in m[k] && ' ' !in m[k]
  }

  lemma KeysInOrder(m: map<string, string>, order: seq<string>)
    requires GoodOrder(order) && m.Keys == set k | k in order
    ensures forall i :: 0 <= i < |order| ==> order[i] in m && order[i] != ""
  {
    OrderKeysGood(order);
    forall i | 0 <= i < |order| ensures order[i] in m {
      assert order[i] in set k | k in order;
    }
  }

  /** Some order of the keys. */
  ghost function AnOrder(): (order: seq<string>)
    ensures GoodOrder(order) && Keys() == set k | k in order
  {
    OrderGood();
    var order :| GoodOrder(order) && Keys() == set k | k in order;
    order
  }

  /** What substitution in that order makes of a template. */
  ghost function Expanded(s: string, m: map<string, string>): string
    requires m.Keys == Keys()
  {
    KeysInOrder(m, AnOrder());
    InOrder(s, AnOrder(), m)
  }

  lemma RendersInOrder(ts: seq<Token>, m: map<string, string>, order: seq<string>)
    requires GoodOrder(order) && m.Keys == (set k | k in order) && GoodTokens(ts, m.Keys) && forall k ::
               k in m ==> '@' !in m[k]
    requires forall i :: 0 <= i < |order| ==> order[i] in m && order[i] != ""
    ensures InOrder(Render(ts, m, {}), order, m) == Render(ts, m, m.Keys)
  {
    OrderKeysGood(order);
    OrderRenders(ts, m, {}, order);
    assert {} + (set k | k in order) == m.Keys;
  }

  lemma ExpandedRenders(ts: seq<Token>, s: string, m: map<string, string>)
    requires PlainValues(m) && GoodTokens(ts, Keys()) && Render(ts, m, {}) == s
    ensures Expanded(s, m) == Render(ts, m, m.Keys)
  {
    KeysInOrder(m, AnOrder());
    RendersInOrder(ts, m, AnOrder());
  }

  /** A key expands to its value. */
  lemma ExpandedKey(k: string, m: map<string, string>)
    requires PlainValues(m) && k in Keys()
    ensures Expanded(k, m) == m[k]
  {
    var ts := [Var(k)];
    assert ts[1..] == [];
    ExpandedRenders(ts, k, m);
  }

  /** A text without '@' stays as it is. */
  lemma ExpandedPlain(s: string, m: map<string, string>)
    requires PlainValues(m) && '@' !in s
    ensures Expanded(s, m) == s
  {
    var ts := Literally(s, m);
    ExpandedRenders(ts, s, m);
  }

  lemma {:induction false} Literally(s: string, m: map<string, string>) returns (ts: seq<Token>)
    requires '@' !in s
    ensures GoodTokens(ts, Keys()) && Render(ts, m, {}) == s == Render(ts, m, m.Keys)
    decreases |s|
  {
    if s == "" { return []; }
    var more := Literally(s[1..], m);
    ts := [Lit(s[0])] + more;
    assert ts[1..] == more && s == [s[0]] + s[1..];
    assert s[0] in s;
  }

  lemma {:induction false} RenderCat(a: seq<Token>, b: seq<Token>, m: map<string, string>, done: set<string>)
    requires done <= m.Keys
    ensures Render(a + b, m, done) == Render(a, m, done) + Render(b, m, done)
    decreases |a|
  {
    if a == [] {
      assert a + b == b;
    } else {
      assert (a + b)[1..] == a[1..] + b;
      RenderCat(a[1..], b, m, done);
      Assoc(Piece(a[0], m, done), Render(a[1..], m, done), Render(b, m, done));
    }
  }

  /** A text without '@' followed by a key. */
  lemma ExpandedThenKey(prefix: string, k: string, m: map<string, string>)
    requires PlainValues(m) && '@' !in prefix && k in Keys()
    ensures Expanded(prefix + k, m) == prefix + m[k]
  {
    var ts := Literally(prefix, m);
    KeyLast(ts, k, m);
    assert GoodTokens(ts + [Var(k)], Keys());
    ExpandedRenders(ts + [Var(k)], prefix + k, m);
  }

  lemma KeyLast(ts: seq<Token>, k: string, m: map<string, string>)
    requires k in m
    ensures Render(ts + [Var(k)], m, {}) == Render(ts, m, {}) + k
            && Render(ts + [Var(k)], m, m.Keys) == Render(ts, m, m.Keys) + m[k]
  {
    var last := [Var(k)];
    assert last[1..] == [];
    RenderCat(ts, last, m, {});
    RenderCat(ts, last, m, m.Keys);
    assert Render(last, m, {}) == k + "" == k && Render(last, m, m.Keys) == m[k] + "" == m[k];
  }

  // ---------- an '@' in a value ----------

  lemma {:induction false} InOrderCat(s: string, a: seq<string>, b: seq<string>, m: map<string, string>)
    requires forall i :: 0 <= i < |a| ==> a[i] in m && a[i] != ""
    requires forall i :: 0 <= i < |b| ==> b[i] in m && b[i] != ""
    ensures InOrder(s, a + b, m) == InOrder(InOrder(s, a, m), b, m)
    decreases |a|
  {
    if a == [] {
      assert a + b == b;
    } else {
      assert (a + b)[1..] == a[1..] + b;
      InOrderCat(ReplaceAll(s, a[0], m[a[0]]), a[1..], b, m);
    }
  }

  /** A key passes over the replacement of other keys. */
  lemma {:induction false} KeyPasses(k: string, order: seq<string>, m: map<string, string>, keys: set<string>)
    requires GoodKeys(keys) && k in keys && k !in order
    requires forall i :: 0 <= i < |order| ==> order[i] in keys && order[i] in m && order[i] != ""
    ensures InOrder(k, order, m) == k
    decreases |order|
  {
    if order != [] {
      PassOverKey(k, "", order[0], m[order[0]], keys);
      assert k + "" == k;
      KeyPasses(k, order[1..], m, keys);
    }
  }

  lemma {:induction false} TextPasses(s: string, order: seq<string>, m: map<string, string>)
    requires '@' !in s && forall i :: 0 <= i < |order| ==> IsKey(order[i]) && order[i] in m && order[i] != ""
    ensures InOrder(s, order, m) == s
    decreases |order|
  {
    if order != [] {
      PassOver(s, "", order[0], m[order[0]]);
      assert s + "" == s;
      TextPasses(s, order[1..], m);
    }
  }

  /** The key at position `i` becomes its value, and that is then subject to the keys behind. */
  lemma KeyReplaced(order: seq<string>, i: nat, m: map<string, string>)
    requires GoodOrder(order) && i < |order| && forall k :: 0 <= k < |order| ==> order[k] in m && order[k] != ""
    ensures InOrder(order[i], order, m) == InOrder(m[order[i]], order[i + 1..], m)
  {
    OrderKeysGood(order);
    var before, behind := order[..i], order[i..];
    assert order == before + behind && behind[1..] == order[i + 1..];
    InOrderCat(order[i], before, behind, m);
    KeyPasses(order[i], before, m, set k | k in order);
    ReplaceHere(order[i], "", m[order[i]]);
    assert order[i] + "" == order[i] && m[order[i]] + "" == m[order[i]];
  }

  /** A value that is another key: the argument `order[i]` ends as that key's value when that
      key is replaced later, and as the key itself when it was replaced before. */
  lemma OrderShowsAt(order: seq<string>, i: nat, j: nat, m: map<string, string>)
    requires GoodOrder(order) && i < |order| && j < |order| && i != j
    requires forall k :: 0 <= k < |order| ==> order[k] in m && order[k] != ""
    requires m[order[i]] == order[j] && '@' !in m[order[j]]
    ensures InOrder(order[i], order, m) == if i < j then m[order[j]] else order[j]
  {
    KeyReplaced(order, i, m);
    if i < j { ReplacedLater(order, i + 1, j, m); } else { ReplacedBefore(order, i + 1, j, m); }
  }

  lemma ReplacedLater(order: seq<string>, n: nat, j: nat, m: map<string, string>)
    requires GoodOrder(order) && n <= j < |order| && forall k :: 0 <= k < |order| ==> order[k] in m && order[k] != ""
    requires '@' !in m[order[j]]
    ensures InOrder(order[j], order[n..], m) == m[order[j]]
  {
    var behind := order[n..];
    OrderRest(order, n);
    assert behind[j - n] == order[j];
    KeyReplaced(behind, j - n, m);
    var rest := behind[j - n + 1..];
    assert forall i :: 0 <= i < |rest| ==> rest[i] == order[j + 1 + i];
    TextPasses(m[order[j]], rest, m);
  }

  lemma ReplacedBefore(order: seq<string>, n: nat, j: nat, m: map<string, string>)
    requires GoodOrder(order) && j < n <= |order| && forall k :: 0 <= k < |order| ==> order[k] in m && order[k] != ""
    ensures InOrder(order[j], order[n..], m) == order[j]
  {
    OrderKeysGood(order);
    var behind := order[n..];
    assert forall k :: 0 <= k < |behind| ==> behind[k] == order[n + k];
    KeyPasses(order[j], behind, m, set k | k in order);
  }

  lemma OrderRest(order: seq<string>, n: nat)
    requires GoodOrder(order) && n <= |order|
    ensures GoodOrder(order[n..])
  {
    var rest := order[n..];
    forall i, j | 0 <= i < |rest| && 0 <= j < |rest| && rest[i] <= rest[j] ensures i == j {
      assert order[n + i] <= order[n + j];
    }
  }

  /** A collector endpoint "@concern" is passed on as the concern's name or as it is given,
      as the order of the map has it. */
  lemma OrderShows(st: Setting, concern: string, system: string, topic: string, brokers: string, partition: nat,
                   order: seq<string>, i: nat, j: nat)
    requires GoodOrder(order) && Keys() == set k | k in order
    requires i < |order| && order[i] == ORDER[4] && j < |order| && order[j] == ORDER[5]
    requires st.otelcol == ORDER[5] && '@' !in concern
    ensures var m := Values(st, concern, system, topic, brokers, partition);
            && (forall k :: 0 <= k < |order| ==> order[k] in m && order[k] != "")
            && InOrder(order[i], order, m) == if i < j then concern else order[j]
  {
    var m := Values(st, concern, system, topic, brokers, partition);
    ValuesKeys(st, concern, system, topic, brokers, partition);
    EndpointValue(st, concern, system, topic, brokers, partition);
    OrderShowsFor(order, i, j, m);
  }

  lemma OrderShowsFor(order: seq<string>, i: nat, j: nat, m: map<string, string>)
    requires GoodOrder(order) && m.Keys == (set k | k in order) && i < |order| && j < |order| && order[i] != order[j]
    requires m[order[i]] == order[j] && '@' !in m[order[j]]
    ensures (forall k :: 0 <= k < |order| ==> order[k] in m && order[k] != "")
    ensures InOrder(order[i], order, m) == if i < j then m[order[j]] else order[j]
  {
    KeysInOrder(m, order);
    OrderShowsAt(order, i, j, m);
  }

  lemma EndpointValue(st: Setting, concern: string, system: string, topic: string, brokers: string, partition: nat)
    ensures var m := Values(st, concern, system, topic, brokers, partition);
            ORDER[4] in m && ORDER[5] in m && m[ORDER[4]] == st.otelcol && m[ORDER[5]] == concern
                && ORDER[4] != ORDER[5]
  {
    KeyMark(4);
    KeyMark(5);
  }

  // ---------- expansion ----------

  ghost function ExpandArgs(args: seq<string>, m: map<string, string>): seq<string>
    requires m.Keys == Keys()
  {
    seq(|args|, i requires 0 <= i < |args| => Expanded(args[i], m))
  }

  ghost function ExpandProgram(p: Program, m: map<string, string>): Program
    requires m.Keys == Keys()
  {
    Program(Expanded(p.name, m), ExpandArgs(p.args, m), Expanded(p.abbrev, m))
  }

  function ProgKey(p: Program): string { p.name + " " + if p.args == [] then "" else Join(p.args, ' ') }

  /** A piece of a generated template: a key, or a text without '@' and space. */
  ghost predicate Simple(s: string) { s in Keys() || ('@' !in s && ' ' !in s) }

  lemma SimpleExpands(s: string, m: map<string, string>)
    requires PlainValues(m) && Simple(s)
    ensures ' ' !in Expanded(s, m) && Expanded(s, m) == if s in Keys() then m[s] else s
  {
    if s in Keys() { ExpandedKey(s, m); } else { ExpandedPlain(s, m); }
  }

  lemma InKeys(i: nat)
    requires i < 10
    ensures ORDER[i] in Keys()
  {
  }

  /** The arguments every generated program ends with. */
  lemma CommonSimple()
    ensures forall i :: 0 <= i < |COMMON_ARGS| ==> Simple(COMMON_ARGS[i])
  {
    InKeys(1);
    InKeys(4);
    InKeys(3);
    InKeys(6);
    InKeys(2);
  }

  /** A text without '@' and space followed by a key. */
  ghost predicate SimpleName(name: string) {
    exists prefix, k :: name == prefix + k && k in Keys() && '@' !in prefix && ' ' !in prefix
  }

  /** The form of the generated programs, for a process topic or for a storage target. */
  ghost predicate Generated(p: Program) {
    && SimpleName(p.name) && |p.args| >= 5 && (forall i :: 0 <= i < |p.args| ==> Simple(p.args[i]))
    && p.args[0] !in Keys() && p.args[2] == "@topic" && p.args[2] in Keys() && p.args[4] == "@partition"
    && p.args[4] in Keys()
  }

  lemma NameSimple()
    ensures SimpleName("./@platform")
  {
    InKeys(0);
    assert "./@platform" == "./" + "@platform";
  }

  lemma FrontSimple(command: string)
    requires '@' !in command && ' ' !in command
    ensures Simple(command) && command !in Keys() && Simple("-t") && Simple("@topic") && "@topic" in Keys()
            && Simple("-p") && Simple("@partition") && "@partition" in Keys()
  {
    InKeys(8);
    InKeys(9);
    KeyNotPlain(command);
  }

  lemma ProcessGenerated()
    ensures Generated(ProcessProgram())
  {
    NameSimple();
    FrontSimple("process");
    CommonSimple();
    var p := ProcessProgram();
    assert forall i :: 5 <= i < |p.args| ==> p.args[i] == COMMON_ARGS[i - 5];
  }

  lemma StorageGenerated(command: string, target: string, mark: string)
    requires '@' !in target && ' ' !in target && '@' !in command && ' ' !in command
    ensures Generated(StorageProgram(command, target, mark))
  {
    NameSimple();
    FrontSimple(command);
    CommonSimple();
    var p := StorageProgram(command, target, mark);
    assert p.args[5] == "--storage_target" && p.args[6] == target;
    assert forall i :: 7 <= i < |p.args| ==> p.args[i] == COMMON_ARGS[i - 7];
  }

  lemma NameExpands(name: string, m: map<string, string>)
    requires SimpleName(name) && PlainValues(m)
    ensures FreeOf(Expanded(name, m), ' ')
  {
    var prefix, k :| name == prefix + k && k in Keys() && '@' !in prefix && ' ' !in prefix;
    ExpandedThenKey(prefix, k, m);
  }

  lemma ArgExpands(args: seq<string>, m: map<string, string>, i: nat)
    requires PlainValues(m) && i < |args| && Simple(args[i])
    ensures FreeOf(ExpandArgs(args, m)[i], ' ') && ExpandArgs(args, m)[i] == if args[i] in Keys() then m[args[i]]
            else args[i]
  {
    SimpleExpands(args[i], m);
  }

  lemma SplitKey(e: Program)
    requires e.args != [] && FreeOf(e.name, ' ') && forall i :: 0 <= i < |e.args| ==> FreeOf(e.args[i], ' ')
    ensures Split(ProgKey(e), ' ') == [e.name] + e.args
  {
    SplitJoin(e.args, ' ');
    SplitFirst(e.name, ' ', Join(e.args, ' '));
  }

  /** The parts of an expanded generated program's key. */
  lemma KeyParts(p: Program, m: map<string, string>)
    requires Generated(p) && PlainValues(m)
    ensures var e := ExpandProgram(p, m);
            && Split(ProgKey(e), ' ') == [e.name] + e.args && |e.args| == |p.args|
            && e.args[0] == p.args[0] && e.args[2] == m[p.args[2]] && e.args[4] == m[p.args[4]]
  {
    var e := ExpandProgram(p, m);
    NameExpands(p.name, m);
    forall i | 0 <= i < |e.args| ensures FreeOf(e.args[i], ' ') { ArgExpands(p.args, m, i); }
    SplitKey(e);
    ArgExpands(p.args, m, 0);
    ArgExpands(p.args, m, 2);
    ArgExpands(p.args, m, 4);
  }

  lemma KeyNotPlain(s: string)
    requires '@' !in s
    ensures s !in Keys()
  {
    OrderGood();
  }

  /** Two generated programs with the same key run the same command on the same partition
      of the same topic. */
  lemma KeyDetermines(p: Program, m: map<string, string>, q: Program, n: map<string, string>)
    requires Generated(p) && PlainValues(m) && Generated(q) && PlainValues(n)
    requires ProgKey(ExpandProgram(p, m)) == ProgKey(ExpandProgram(q, n))
    ensures p.args[0] == q.args[0] && m["@topic"] == n["@topic"] && m["@partition"] == n["@partition"]
  {
    KeyParts(p, m);
    KeyParts(q, n);
    var a, b := ExpandProgram(p, m), ExpandProgram(q, n);
    assert ([a.name] + a.args)[1..] == a.args && ([b.name] + b.args)[1..] == b.args;
  }

  // ---------- one program key per partition ----------

  lemma {:induction false} JoinFree(parts: seq<string>, sep: char, c: char)
    requires parts != [] && sep != c && forall i :: 0 <= i < |parts| ==> FreeOf(parts[i], c)
    ensures FreeOf(Join(parts, sep), c)
    decreases |parts|
  {
    if |parts| > 1 {
      assert forall i :: 0 <= i < |parts[1..]| ==> parts[1..][i] == parts[i + 1];
      JoinFree(parts[1..], sep, c);
    }
  }

  lemma TopicNameFree(platform: string, environment: string, concern: string, kind: ConcernType, name: string,
                      generation: int, c: char)
    requires IsValidName(platform) && IsValidName(environment) && IsValidName(concern) && IsValidName(name)
             && 1 <= generation < Topics.TWO31
    requires c == '@' || c == ' '
    ensures FreeOf(BuildFullTopicName(platform, environment, concern, kind, name, generation).value, c)
  {
    var g := Padded(generation);
    PaddedAtoi(generation);
    TypeRoundTrip(kind);
    NameJoin(platform, environment, concern, kind, name, g);
    PartsFree(platform, environment, concern, kind, name, g, c);
    JoinFree(NameParts(platform, environment, concern, kind, name, g), '.', c);
  }

  lemma PartsFree(platform: string, environment: string, concern: string, kind: ConcernType, name: string, g: string,
                  c: char)
    requires IsValidName(platform) && IsValidName(environment) && IsValidName(concern) && IsValidName(name)
             && AllDigits(g) && (c == '@' || c == ' ')
    ensures var parts := NameParts(platform, environment, concern, kind, name, g);
            forall i :: 0 <= i < |parts| ==> FreeOf(parts[i], c)
  {
    NamesFree(platform, c);
    NamesFree(environment, c);
    NamesFree(concern, c);
    NamesFree(name, c);
    TypeRoundTrip(kind);
    NamesFree(TypeName(kind), c);
    assert FreeOf(RKCY, c) && FreeOf(g, c);
  }

  lemma NamesFree(name: string, c: char)
    requires IsValidName(name) && (c == '@' || c == ' ')
    ensures FreeOf(name, c)
  {
  }

  lemma ValuesKeys(st: Setting, concern: string, system: string, topic: string, brokers: string, partition: nat)
    ensures Values(st, concern, system, topic, brokers, partition).Keys == Keys()
  {
    var m := Values(st, concern, system, topic, brokers, partition);
    forall k ensures k in m <==> k in ORDER {}
  }

  predicate PlainText(s: string) { '@' !in s && ' ' !in s }

  predicate PlainSetting(st: Setting) {
    PlainText(st.platform) && PlainText(st.environment) && PlainText(st.stream) && PlainText(st.adminBrokers)
        && PlainText(st.otelcol)
  }

  lemma ValuesPlain(st: Setting, concern: string, system: string, topic: string, brokers: string, partition: nat)
    requires PlainSetting(st) && PlainText(concern) && PlainText(system) && PlainText(topic) && PlainText(brokers)
    ensures var m := Values(st, concern, system, topic, brokers, partition);
            PlainValues(m) && m["@topic"] == topic && m["@partition"] == Decimal(partition)
  {
    ValuesKeys(st, concern, system, topic, brokers, partition);
    assert PlainText(Decimal(partition));
  }

  /** A partition of a topic of the platform. */
  datatype Slot = Slot(concern: Concern, topics: TopicSet, brokers: string, partition: nat)

  ghost predicate SlotOk(st: Setting, s: Slot) {
    && IsValidName(st.platform) && IsValidName(st.environment) && IsValidName(s.concern.name)
    && IsValidName(s.topics.name)
    && s.topics.current.Some? && 1 <= s.topics.current.value.generation < Topics.TWO31 && PlainText(s.brokers)
  }

  /** Its full topic name, or nothing where building it is fatal. */
  function SlotTopic(st: Setting, s: Slot): string {
    if s.topics.current.None? then ""
    else
      var full := BuildFullTopicName(st.platform, st.environment, s.concern.name, s.concern.kind, s.topics.name,
                                     s.topics.current.value.generation);
      if full.None? then "" else full.value
  }

  function SlotValues(st: Setting, s: Slot): map<string, string> {
    Values(st, s.concern.name, s.topics.name, SlotTopic(st, s), s.brokers, s.partition)
  }

  lemma SlotKeys(st: Setting, s: Slot)
    ensures SlotValues(st, s).Keys == Keys()
  {
    ValuesKeys(st, s.concern.name, s.topics.name, SlotTopic(st, s), s.brokers, s.partition);
  }

  lemma SlotPlain(st: Setting, s: Slot)
    requires PlainSetting(st) && SlotOk(st, s)
    ensures PlainValues(SlotValues(st, s))
    ensures SlotValues(st, s)["@topic"] == SlotTopic(st, s) && SlotValues(st, s)["@partition"] == Decimal(s.partition)
  {
    var t := s.topics.current.value;
    ParseBuild(st.platform, st.environment, s.concern.name, s.concern.kind, s.topics.name, t.generation);
    TopicNameFree(st.platform, st.environment, s.concern.name, s.concern.kind, s.topics.name, t.generation, '@');
    TopicNameFree(st.platform, st.environment, s.concern.name, s.concern.kind, s.topics.name, t.generation, ' ');
    NamesFree(s.concern.name, '@');
    NamesFree(s.concern.name, ' ');
    NamesFree(s.topics.name, '@');
    NamesFree(s.topics.name, ' ');
    ValuesPlain(st, s.concern.name, s.topics.name, SlotTopic(st, s), s.brokers, s.partition);
  }

  /** Programs generated for different partitions, topics or concerns have different keys. */
  lemma SlotKeyDetermines(st: Setting, s: Slot, p: Program, t: Slot, q: Program)
    requires PlainSetting(st) && SlotOk(st, s) && SlotOk(st, t) && Generated(p) && Generated(q)
    ensures SlotValues(st, s).Keys == Keys() && SlotValues(st, t).Keys == Keys()
    ensures ProgKey(ExpandProgram(p, SlotValues(st, s))) == ProgKey(ExpandProgram(q, SlotValues(st, t))) ==>
              s.concern.name == t.concern.name && s.topics.name == t.topics.name && s.partition == t.partition
                  && p.args[0] == q.args[0]
  {
    SlotPlain(st, s);
    SlotPlain(st, t);
    var m, n := SlotValues(st, s), SlotValues(st, t);
    if ProgKey(ExpandProgram(p, m)) == ProgKey(ExpandProgram(q, n)) {
      KeyDetermines(p, m, q, n);
      ParseBuild(st.platform, st.environment, s.concern.name, s.concern.kind, s.topics.name,
                 s.topics.current.value.generation);
      ParseBuild(st.platform, st.environment, t.concern.name, t.concern.kind, t.topics.name,
                 t.topics.current.value.generation);
      DecimalValue(s.partition);
      DecimalValue(t.partition);
    }
  }

  /** An accepted platform has exactly one program template for each APECS process topic and
      one for each storage topic, the primary target's. */
  lemma OneTemplate(ts: seq<StorageTarget>, primary: string)
    requires OnePrimary(ts, primary) && '@' !in primary && ' ' !in primary
    ensures |ApecsPrograms("process", ts)| == 1 && Generated(ApecsPrograms("process", ts)[0])
    ensures |ApecsPrograms("storage", ts)| == 1 && Generated(ApecsPrograms("storage", ts)[0])
  {
    ProcessGenerated();
    var i :| 0 <= i < |ts| && ts[i].name == primary && ts[i].isPrimary && forall j ::
          0 <= j < |ts| && ts[j].isPrimary ==> j == i;
    PrimaryProgram(ts, i);
    StorageGenerated("storage", primary, "*");
    assert |"process"| != |"storage"| || "process"[0] != "storage"[0];
  }

  lemma {:induction false} NoPrimary(ts: seq<StorageTarget>)
    requires forall j :: 0 <= j < |ts| ==> !ts[j].isPrimary
    ensures StoragePrograms(ts, true) == []
  {
    if ts != [] {
      NoPrimary(ts[1..]);
    }
  }

  lemma {:induction false} PrimaryProgram(ts: seq<StorageTarget>, i: nat)
    requires i < |ts| && ts[i].isPrimary && forall j :: 0 <= j < |ts| && ts[j].isPrimary ==> j == i
    ensures StoragePrograms(ts, true) == [StorageProgram("storage", ts[i].name, "*")]
  {
    if i == 0 {
      NoPrimary(ts[1..]);
    } else {
      assert !ts[0].isPrimary;
      PrimaryProgram(ts[1..], i - 1);
    }
  }
}
