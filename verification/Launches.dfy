/**
 What is launched for a partition of an APECS topic: the command line of the generated process
 and storage programs with every key replaced (initTopics and expandProgs in
 pkg/rkcy/platform_def.go).
 */
module Launches {
  import opened Topics
  import opened PlatformDefs
  import opened Substitution
  import opened Programs
  import opened ProgramSets

  /** The value of each key. */
  lemma FirstValues(st: Setting, s: Slot)
    ensures var m := SlotValues(st, s);
            && m.Keys == Keys()
            && ORDER[0] in m && m[ORDER[0]] == st.platform
            && ORDER[1] in m && m[ORDER[1]] == st.environment
            && ORDER[2] in m && m[ORDER[2]] == st.stream
            && ORDER[3] in m && m[ORDER[3]] == st.adminBrokers
            && ORDER[4] in m && m[ORDER[4]] == st.otelcol
  {
    SlotKeys(st, s);
    FirstMarks();
    LastMarks();
  }

  lemma LastValues(st: Setting, s: Slot)
    ensures var m := SlotValues(st, s);
            && m.Keys == Keys()
            && ORDER[5] in m && m[ORDER[5]] == s.concern.name
            && ORDER[6] in m && m[ORDER[6]] == s.brokers
            && ORDER[7] in m && m[ORDER[7]] == s.topics.name
            && ORDER[8] in m && m[ORDER[8]] == SlotTopic(st, s)
            && ORDER[9] in m && m[ORDER[9]] == Decimal(s.partition)
  {
    SlotKeys(st, s);
    FirstMarks();
    LastMarks();
  }

  lemma ArgsCat(a: seq<string>, b: seq<string>, m: map<string, string>)
    requires m.Keys == Keys()
    ensures ExpandArgs(a + b, m) == ExpandArgs(a, m) + ExpandArgs(b, m)
  {
  }

  /** An option with a key behind it. */
  lemma OptionExpands(option: string, i: nat, m: map<string, string>)
    requires PlainValues(m) && '@' !in option && i < 10
    ensures ORDER[i] in m && ExpandArgs([option, ORDER[i]], m) == [option, m[ORDER[i]]]
  {
    InKeys(i);
    ExpandedPlain(option, m);
    ExpandedKey(ORDER[i], m);
  }

  /** What every generated program is told. */
  function Common(st: Setting, brokers: string): seq<string> {
    ["-e", st.environment] + ["--otelcol_endpoint", st.otelcol] + ["--admin_brokers", st.adminBrokers]
    + ["--consumer_brokers", brokers] + ["--stream", st.stream]
  }

  lemma CommonExpands(st: Setting, s: Slot)
    requires PlainSetting(st) && SlotOk(st, s)
    ensures SlotValues(st, s).Keys == Keys() && ExpandArgs(COMMON_ARGS, SlotValues(st, s)) == Common(st, s.brokers)
  {
    SlotPlain(st, s);
    FirstValues(st, s);
    LastValues(st, s);
    var m := SlotValues(st, s);
    FivePairs(COMMON_ARGS, m, "-e", 1, "--otelcol_endpoint", 4, "--admin_brokers", 3, "--consumer_brokers", 6,
              "--stream", 2);
  }

  lemma FivePairs(args: seq<string>, m: map<string, string>, a: string, i: nat, b: string, j: nat, c: string, k: nat,
                  d: string, l: nat, e: string, n: nat)
    requires PlainValues(m) && '@' !in a && '@' !in b && '@' !in c && '@' !in d && '@' !in e
    requires i < 10 && j < 10 && k < 10 && l < 10 && n < 10
    requires args == [a, ORDER[i], b, ORDER[j], c, ORDER[k], d, ORDER[l], e, ORDER[n]]
    ensures ORDER[i] in m && ORDER[j] in m && ORDER[k] in m && ORDER[l] in m && ORDER[n] in m
    ensures ExpandArgs(args, m) == [a, m[ORDER[i]]] + [b, m[ORDER[j]]] + [c, m[ORDER[k]]] + [d, m[ORDER[l]]]
                                   + [e, m[ORDER[n]]]
  {
    var p, q, r, s, t := [a, ORDER[i]], [b, ORDER[j]], [c, ORDER[k]], [d, ORDER[l]], [e, ORDER[n]];
    assert args == p + q + r + s + t;
    OptionExpands(a, i, m);
    OptionExpands(b, j, m);
    OptionExpands(c, k, m);
    OptionExpands(d, l, m);
    OptionExpands(e, n, m);
    ArgsCat(p + q + r + s, t, m);
    ArgsCat(p + q + r, s, m);
    ArgsCat(p + q, r, m);
    ArgsCat(p, q, m);
  }

  lemma RenderTwo(s: seq<Token>, k: string, t: seq<Token>, l: string, m: map<string, string>)
    requires k in m && l in m
    ensures Render(s + [Var(k)] + t + [Var(l)], m, {}) == Render(s, m, {}) + k + Render(t, m, {}) + l
    ensures Render(s + [Var(k)] + t + [Var(l)], m, m.Keys)
            == Render(s, m, m.Keys) + m[k] + Render(t, m, m.Keys) + m[l]
  {
    KeyLast(s, k, m);
    KeyLast(s + [Var(k)] + t, l, m);
    RenderCat(s + [Var(k)], t, m, {});
    RenderCat(s + [Var(k)], t, m, m.Keys);
  }

  lemma TokensTwo(s: seq<Token>, k: string, t: seq<Token>, l: string, keys: set<string>)
    requires GoodTokens(s, keys) && GoodTokens(t, keys) && k in keys && l in keys
    ensures GoodTokens(s + [Var(k)] + t + [Var(l)], keys)
  {
  }

  /** Two keys, each behind a text without '@'. */
  lemma TwoKeysExpand(a: string, k: string, b: string, l: string, m: map<string, string>)
    requires PlainValues(m) && '@' !in a && '@' !in b && k in Keys() && l in Keys()
    ensures Expanded(a + k + b + l, m) == a + m[k] + b + m[l]
  {
    var s := Literally(a, m);
    var t := Literally(b, m);
    RenderTwo(s, k, t, l, m);
    TokensTwo(s, k, t, l, Keys());
    ExpandedRenders(s + [Var(k)] + t + [Var(l)], a + k + b + l, m);
  }

  lemma OptionOf(option: string, k: string, m: map<string, string>)
    requires PlainValues(m) && '@' !in option && k in Keys()
    ensures ExpandArgs([option, k], m) == [option, m[k]]
  {
    ExpandedPlain(option, m);
    ExpandedKey(k, m);
  }

  lemma {:induction false} PlainArgs(args: seq<string>, m: map<string, string>)
    requires PlainValues(m) && forall i :: 0 <= i < |args| ==> '@' !in args[i]
    ensures ExpandArgs(args, m) == args
  {
    forall i | 0 <= i < |args| ensures ExpandArgs(args, m)[i] == args[i] {
      ExpandedPlain(args[i], m);
    }
  }

  lemma ArgsExpand(command: string, t: string, k: string, p: string, l: string, extra: seq<string>, common: seq<string>,
                   m: map<string, string>)
    requires PlainValues(m) && k in Keys() && l in Keys() && '@' !in t && '@' !in p
    requires '@' !in command && forall i :: 0 <= i < |extra| ==> '@' !in extra[i]
    ensures ExpandArgs([command, t, k, p, l] + extra + common, m)
            == [command, t, m[k], p, m[l]] + extra + ExpandArgs(common, m)
  {
    var c, a, b := [command], [t, k], [p, l];
    assert [command, t, k, p, l] == c + a + b;
    PlainArgs(c, m);
    OptionOf(t, k, m);
    OptionOf(p, l, m);
    PlainArgs(extra, m);
    ArgsCat(c + a + b + extra, common, m);
    ArgsCat(c + a + b, extra, m);
    ArgsCat(c + a, b, m);
    ArgsCat(c, a, m);
  }

  /** The program that is started for a partition of a topic: the platform's own, its arguments,
      and what it is called for short. */
  predicate LaunchOf(e: Program, st: Setting, s: Slot, command: string, extra: seq<string>, mark: string) {
    && e.name == "./" + st.platform
    && e.args == [command, "-t", SlotTopic(st, s), "-p", Decimal(s.partition)] + extra + Common(st, s.brokers)
    && e.abbrev == mark + s.concern.name + "/" + Decimal(s.partition)
  }

  /** A template with the keys of these. */
  predicate TemplateFor(p: Program, command: string, extra: seq<string>, mark: string) {
    && p.name == "./" + ORDER[0] && p.args == [command, "-t", ORDER[8], "-p", ORDER[9]] + extra + COMMON_ARGS
    && p.abbrev == mark + ORDER[5] + "/" + ORDER[9]
  }

  lemma TemplateExpands(p: Program, st: Setting, s: Slot, command: string, extra: seq<string>, mark: string)
    requires PlainSetting(st) && SlotOk(st, s) && TemplateFor(p, command, extra, mark)
    requires '@' !in command && '@' !in mark && forall i :: 0 <= i < |extra| ==> '@' !in extra[i]
    ensures SlotValues(st, s).Keys == Keys()
    ensures LaunchOf(ExpandProgram(p, SlotValues(st, s)), st, s, command, extra, mark)
  {
    SlotPlain(st, s);
    FirstValues(st, s);
    LastValues(st, s);
    CommonExpands(st, s);
    var m, platform, concern, topic, partition := SlotValues(st, s), ORDER[0], ORDER[5], ORDER[8], ORDER[9];
    InKeys(0);
    InKeys(5);
    InKeys(8);
    InKeys(9);
    ExpandedThenKey("./", platform, m);
    TwoKeysExpand(mark, concern, "/", partition, m);
    ArgsExpand(command, "-t", topic, "-p", partition, extra, COMMON_ARGS, m);
  }

  lemma ProcessTemplate()
    ensures TemplateFor(ProcessProgram(), "process", [], "p/")
  {
  }

  lemma StorageTemplate(command: string, target: string, mark: string)
    ensures TemplateFor(StorageProgram(command, target, mark), command, ["--storage_target", target],
                        "s/" + mark + target + "/")
  {
  }

  lemma ProcessLaunch(st: Setting, s: Slot)
    requires PlainSetting(st) && SlotOk(st, s)
    ensures SlotValues(st, s).Keys == Keys()
    ensures LaunchOf(ExpandProgram(ProcessProgram(), SlotValues(st, s)), st, s, "process", [], "p/")
  {
    ProcessTemplate();
    TemplateExpands(ProcessProgram(), st, s, "process", [], "p/");
  }

  /** A secondary target has the storage program without the star and with a command of its own. */
  lemma SecondaryLaunch(st: Setting, s: Slot, target: string, ts: seq<StorageTarget>, i: nat)
    requires PlainSetting(st) && SlotOk(st, s) && PlainText(target)
    requires i < |ts| && ts[i].name == target && !ts[i].isPrimary
    ensures SlotValues(st, s).Keys == Keys()
    ensures exists t :: t in ApecsPrograms("storage-scnd", ts)
                        && LaunchOf(ExpandProgram(t, SlotValues(st, s)), st, s, "storage-scnd",
                                    ["--storage_target", target], "s/" + target + "/")
  {
    StorageTemplate("storage-scnd", target, "");
    assert "s/" + "" + target + "/" == "s/" + target + "/";
    var t := StorageProgram("storage-scnd", target, "");
    TemplateExpands(t, st, s, "storage-scnd", ["--storage_target", target], "s/" + target + "/");
    SecondaryProgram(ts, i);
    ScndPrograms(ts);
  }

  lemma ScndPrograms(ts: seq<StorageTarget>)
    ensures ApecsPrograms("storage-scnd", ts) == StoragePrograms(ts, false)
  {
    assert |"storage-scnd"| != |"storage"| && |"storage-scnd"| != |"process"|;
  }

  lemma {:induction false} SecondaryProgram(ts: seq<StorageTarget>, i: nat)
    requires i < |ts| && !ts[i].isPrimary
    ensures StorageProgram("storage-scnd", ts[i].name, "") in StoragePrograms(ts, false)
  {
    if i > 0 {
      SecondaryProgram(ts[1..], i - 1);
    }
  }

  lemma StorageLaunch(st: Setting, s: Slot, target: string)
    requires PlainSetting(st) && SlotOk(st, s) && PlainText(target)
    ensures SlotValues(st, s).Keys == Keys()
    ensures LaunchOf(ExpandProgram(StorageProgram("storage", target, "*"), SlotValues(st, s)), st, s, "storage",
                     ["--storage_target", target], "s/*" + target + "/")
  {
    StorageTemplate("storage", target, "*");
    assert "s/" + "*" + target + "/" == "s/*" + target + "/";
    TemplateExpands(StorageProgram("storage", target, "*"), st, s, "storage", ["--storage_target", target],
                    "s/*" + target + "/");
  }

  lemma {:induction false} BrokersAre(cs: seq<Cluster>, c: Cluster)
    requires UniqueClusters(cs) && c in cs
    ensures BrokersOf(cs, c.name) == c.brokers
  {
    var i :| 0 <= i < |cs| && cs[i] == c;
    if i > 0 {
      assert cs[0].name != cs[i].name && cs[1..][i - 1] == c;
      BrokersAre(cs[1..], c);
    }
  }

  /** On an accepted platform each partition of an APECS process or storage topic is consumed by
      the platform's own program, told the full topic name, the partition, the brokers of the
      cluster the topic is on and, for storage, the primary target. */
  lemma PlaceLaunch(p: Platform, name: string, environment: string, a: Launch, x: Place, cluster: Cluster,
                    primary: string)
    requires Accepts(p, name, environment) && Plain(Normalized(p), a) && IsPlace(Normalized(p), x)
    requires var t := TopicAt(Normalized(p), x.concern, x.topic);
             t.current.Some? && cluster in p.clusters && cluster.name == t.current.value.cluster
    requires OnePrimary(p.targets, primary)
    ensures var n := Normalized(p);
            var s := Slot(n.concerns[x.concern], TopicAt(n, x.concern, x.topic), cluster.brokers, x.partition);
            && IsJob(n, Job(x, 0))
            && if s.topics.name == "process"
               then LaunchOf(ProgramOf(n, a, Job(x, 0)), SettingOf(n, a), s, "process", [], "p/")
               else LaunchOf(ProgramOf(n, a, Job(x, 0)), SettingOf(n, a), s, "storage", ["--storage_target", primary],
                             "s/*" + primary + "/")
  {
    var n, st := Normalized(p), SettingOf(Normalized(p), a);
    var s := Slot(n.concerns[x.concern], TopicAt(n, x.concern, x.topic), cluster.brokers, x.partition);
    AcceptedSlot(p, name, environment, a, x);
    PlaceOk(p, name, environment, a, x);
    OneJob(n, x);
    BrokersAre(p.clusters, cluster);
    PlaceProgram(p, name, environment, a, x, primary);
    assert s == SlotAt(n, s.concern, s.topics, x.partition);
    if s.topics.name == "process" { ProcessLaunch(st, s); } else { StorageLaunch(st, s, primary); }
  }

  lemma PlaceProgram(p: Platform, name: string, environment: string, a: Launch, x: Place, primary: string)
    requires Accepts(p, name, environment) && Plain(Normalized(p), a) && IsPlace(Normalized(p), x)
             && OnePrimary(p.targets, primary)
    ensures var t := TopicAt(Normalized(p), x.concern, x.topic);
            && PlainText(primary)
            && t.programs == if t.name == "process" then [ProcessProgram()]
                             else [StorageProgram("storage", primary, "*")]
  {
    var t := TopicAt(Normalized(p), x.concern, x.topic);
    AcceptedSlot(p, name, environment, a, x);
    assert t.programs == ApecsPrograms(t.name, p.targets);
    var i :| 0 <= i < |p.targets| && p.targets[i].name == primary && p.targets[i].isPrimary && forall j ::
          0 <= j < |p.targets| && p.targets[j].isPrimary ==> j == i;
    PrimaryProgram(p.targets, i);
  }
}
