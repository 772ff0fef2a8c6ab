/**
 All programs of a platform (expandProgs, getAllProgs and Diff in pkg/rkcy/platform_def.go)
 and the runner that keeps them running (updateRunning in pkg/runner/manager.go).
 `OneKeyPerPartition` and `KeysDiffer` state that each partition of each APECS process and
 storage topic of an accepted platform has exactly one program, under a key of its own. The
 tags of a program are left out.
 */
module ProgramSets {
  import opened Wrappers
  import opened Seqs
  import Topics
  import opened PlatformDefs
  import opened Substitution
  import opened Programs

  /** What the runner is started with. */
  datatype Launch = Launch(stream: string, adminBrokers: string, otelcol: string)

  function SettingOf(p: Platform, a: Launch): Setting {
    Setting(p.name, p.environment, a.stream, a.adminBrokers, a.otelcol)
  }

  function BrokersOf(cs: seq<Cluster>, name: string): string {
    if cs == [] then "" else if cs[0].name == name then cs[0].brokers else BrokersOf(cs[1..], name)
  }

  function PartitionCount(t: TopicSet): nat {
    if t.current.Some? && t.current.value.partitionCount > 0 then t.current.value.partitionCount else 0
  }

  function SlotAt(p: Platform, c: Concern, t: TopicSet, partition: nat): Slot {
    Slot(c, t, if t.current.Some? then BrokersOf(p.clusters, t.current.value.cluster) else "", partition)
  }

  // ---------- the loops over concerns, topics, templates and partitions ----------

  /** A partition of a topic of a concern, and one of the topic's program templates. */
  datatype Place = Place(concern: nat, topic: nat, partition: nat)
  datatype Job = Job(place: Place, template: nat)

  predicate HasTopic(p: Platform, i: nat, j: nat) { i < |p.concerns| && j < |p.concerns[i].topics| }

  function TopicAt(p: Platform, i: nat, j: nat): TopicSet
    requires HasTopic(p, i, j)
  {
    p.concerns[i].topics[j]
  }

  ghost predicate IsJob(p: Platform, job: Job) {
    && HasTopic(p, job.place.concern, job.place.topic)
    && job.template < |TopicAt(p, job.place.concern, job.place.topic).programs|
    && job.place.partition < PartitionCount(TopicAt(p, job.place.concern, job.place.topic))
  }

  /** The first `n` partitions. */
  function PartitionJobs(i: nat, j: nat, k: nat, n: nat): seq<Job> {
    seq(n, q requires 0 <= q < n => Job(Place(i, j, q), k))
  }

  /** The first `k` templates. */
  function TemplateJobs(i: nat, j: nat, k: nat, n: nat): (r: seq<Job>)
    ensures forall x :: x in r <==> x.place.concern == i && x.place.topic == j && x.template < k
                                    && x.place.partition < n
  {
    if k == 0 then [] else
      var last := PartitionJobs(i, j, k - 1, n);
      assert forall x: Job :: x in last <==> x.place.concern == i && x.place.topic == j && x.template == k - 1
                                             && x.place.partition < n by {
        forall x: Job | x.place.concern == i && x.place.topic == j && x.template == k - 1 && x.place.partition < n
          ensures x in last
        {
          assert last[x.place.partition] == x;
        }
      }
      TemplateJobs(i, j, k - 1, n) + last
  }

  /** The first `j` topics. */
  function TopicJobs(p: Platform, i: nat, j: nat): (r: seq<Job>)
    requires i < |p.concerns| && j <= |p.concerns[i].topics|
    ensures forall x :: x in r <==> IsJob(p, x) && x.place.concern == i && x.place.topic < j
  {
    if j == 0 then [] else
      var t := TopicAt(p, i, j - 1);
      TopicJobs(p, i, j - 1) + TemplateJobs(i, j - 1, |t.programs|, PartitionCount(t))
  }

  /** The first `i` concerns. */
  function ConcernJobs(p: Platform, i: nat): (r: seq<Job>)
    requires i <= |p.concerns|
    ensures forall x :: x in r <==> IsJob(p, x) && x.place.concern < i
  {
    if i == 0 then [] else ConcernJobs(p, i - 1) + TopicJobs(p, i - 1, |p.concerns[i - 1].topics|)
  }

  // ---------- expansion ----------

  function JobValues(p: Platform, a: Launch, job: Job): map<string, string>
    requires IsJob(p, job)
  {
    var c := p.concerns[job.place.concern];
    SlotValues(SettingOf(p, a), SlotAt(p, c, c.topics[job.place.topic], job.place.partition))
  }

  function TemplateOf(p: Platform, job: Job): Program
    requires IsJob(p, job)
  {
    TopicAt(p, job.place.concern, job.place.topic).programs[job.template]
  }

  ghost function ProgramOf(p: Platform, a: Launch, job: Job): Program
    requires IsJob(p, job)
  {
    var c := p.concerns[job.place.concern];
    SlotKeys(SettingOf(p, a), SlotAt(p, c, c.topics[job.place.topic], job.place.partition));
    ExpandProgram(TemplateOf(p, job), JobValues(p, a, job))
  }

  ghost function KeyOf(p: Platform, a: Launch, job: Job): string
    requires IsJob(p, job)
  {
    ProgKey(ProgramOf(p, a, job))
  }

  /** Programs filed under their keys, later ones over earlier ones. */
  function Filed(ps: seq<Program>): map<string, Program> {
    if ps == [] then map[] else
      var last := ps[|ps| - 1];
      Filed(ps[..|ps| - 1])[ProgKey(last) := last]
  }

  /** The expansion of a platform's jobs. */
  ghost function Expander(p: Platform, a: Launch): Job -> Program {
    job => if IsJob(p, job) then ProgramOf(p, a, job) else Program("", [], "")
  }

  /** getAllProgs */
  ghost function AllProgs(p: Option<Platform>, a: Launch): map<string, Program> {
    if p.None? then map[] else Filed(Mapped(Expander(p.value, a), ConcernJobs(p.value, |p.value.concerns|)))
  }

  predicate Keyed(progs: map<string, Program>) { forall k :: k in progs ==> ProgKey(progs[k]) == k }

  /** Every program is filed under its key, and no other key is used. */
  lemma {:induction false} FiledKeys(ps: seq<Program>)
    ensures Keyed(Filed(ps)) && forall key :: key in Filed(ps) <==> key in KeysOf(ps)
    decreases |ps|
  {
    if ps != [] {
      var before, last := ps[..|ps| - 1], ps[|ps| - 1];
      FiledKeys(before);
      assert ps == before + [last];
      KeysAppend(before, last);
    }
  }

  lemma FiledAt(ps: seq<Program>, i: nat)
    requires i < |ps|
    ensures ProgKey(ps[i]) in Filed(ps)
  {
    FiledKeys(ps);
    assert ps[i] in ps;
  }

  function KeysOf(ps: seq<Program>): set<string> { set p | p in ps :: ProgKey(p) }

  lemma KeysAppend(ps: seq<Program>, p: Program)
    ensures KeysOf(ps + [p]) == KeysOf(ps) + {ProgKey(p)}
  {
    assert p in ps + [p];
    forall k ensures k in KeysOf(ps + [p]) <==> k in KeysOf(ps) + {ProgKey(p)} {
      if k in KeysOf(ps) {
        var q :| q in ps && ProgKey(q) == k;
        assert q in ps + [p];
      }
    }
  }

  // ---------- one key per partition ----------

  /** A partition of a process or storage topic of an APECS concern. */
  predicate IsPlace(n: Platform, x: Place) {
    && HasTopic(n, x.concern, x.topic) && n.concerns[x.concern].kind.APECS?
    && (TopicAt(n, x.concern, x.topic).name == "process" || TopicAt(n, x.concern, x.topic).name == "storage")
    && x.partition < PartitionCount(TopicAt(n, x.concern, x.topic))
  }

  /** Brokers, target names and settings without '@' and space, and generations that are int32. */
  ghost predicate Plain(p: Platform, a: Launch) {
    && PlainText(a.stream) && PlainText(a.adminBrokers) && PlainText(a.otelcol)
    && (forall i :: 0 <= i < |p.clusters| ==> PlainText(p.clusters[i].brokers))
    && (forall i :: 0 <= i < |p.targets| ==> PlainText(p.targets[i].name))
    && forall i, j :: HasTopic(p, i, j) && TopicAt(p, i, j).current.Some? ==>
         TopicAt(p, i, j).current.value.generation < Topics.TWO31
  }

  lemma {:induction false} BrokersPlain(cs: seq<Cluster>, name: string)
    requires forall i :: 0 <= i < |cs| ==> PlainText(cs[i].brokers)
    ensures PlainText(BrokersOf(cs, name))
  {
    if cs != [] { BrokersPlain(cs[1..], name); }
  }

  /** What an accepted platform has at any partition. */
  lemma AcceptedSlot(p: Platform, name: string, environment: string, a: Launch, x: Place)
    requires Accepts(p, name, environment) && Plain(Normalized(p), a) && HasTopic(Normalized(p), x.concern, x.topic)
    ensures var n := Normalized(p); var c, t := n.concerns[x.concern], TopicAt(n, x.concern, x.topic);
            && PlainSetting(SettingOf(n, a)) && SlotOk(SettingOf(n, a), SlotAt(n, c, t, x.partition))
            && c == InitConcern(p.concerns[x.concern], AdminOf(p.clusters), p.targets)
  {
    var n := Normalized(p);
    var c, t := n.concerns[x.concern], TopicAt(n, x.concern, x.topic);
    assert c == InitConcerns(p)[x.concern];
    assert ConcernOk(p, c, ClusterNames(p.clusters));
    assert ValidTopics(t, ClusterNames(p.clusters));
    NamesFree(n.name, '@');
    NamesFree(n.name, ' ');
    NamesFree(n.environment, '@');
    NamesFree(n.environment, ' ');
    BrokersPlain(n.clusters, t.current.value.cluster);
  }

  /** What it has at a place. */
  lemma PlaceOk(p: Platform, name: string, environment: string, a: Launch, x: Place)
    requires Accepts(p, name, environment) && Plain(Normalized(p), a) && IsPlace(Normalized(p), x)
    ensures var n := Normalized(p); var c, t := n.concerns[x.concern], TopicAt(n, x.concern, x.topic);
            && PlainSetting(SettingOf(n, a)) && SlotOk(SettingOf(n, a), SlotAt(n, c, t, x.partition))
            && |t.programs| == 1 && Generated(t.programs[0])
  {
    AcceptedSlot(p, name, environment, a, x);
    var c := Normalized(p).concerns[x.concern];
    PlaceTemplate(p, c, c.topics[x.topic], x);
  }

  lemma PlaceTemplate(p: Platform, c: Concern, t: TopicSet, x: Place)
    requires TargetsOk(p.targets) && forall i :: 0 <= i < |p.targets| ==> PlainText(p.targets[i].name)
    requires x.concern < |p.concerns| && c == InitConcern(p.concerns[x.concern], AdminOf(p.clusters), p.targets)
    requires c.kind.APECS? && x.topic < |c.topics| && t == c.topics[x.topic]
             && (t.name == "process" || t.name == "storage")
    ensures |t.programs| == 1 && Generated(t.programs[0])
  {
    var primary :| OnePrimary(p.targets, primary);
    OneTemplate(p.targets, primary);
    assert t.programs == ApecsPrograms(t.name, p.targets);
  }

  /** Each partition of each process and storage topic of an accepted platform has exactly one
      program, and it is filed under its key. */
  lemma OneKeyPerPartition(p: Platform, name: string, environment: string, a: Launch, x: Place)
    requires Accepts(p, name, environment) && Plain(Normalized(p), a) && IsPlace(Normalized(p), x)
    ensures var n := Normalized(p);
            && (forall job :: IsJob(n, job) && job.place == x <==> job == Job(x, 0))
            && KeyOf(n, a, Job(x, 0)) in AllProgs(Some(n), a)
  {
    var n := Normalized(p);
    PlaceOk(p, name, environment, a, x);
    OneJob(n, x);
    JobFiled(n, a, Job(x, 0));
  }

  lemma OneJob(n: Platform, x: Place)
    requires IsPlace(n, x) && |TopicAt(n, x.concern, x.topic).programs| == 1
    ensures forall job :: IsJob(n, job) && job.place == x <==> job == Job(x, 0)
  {
  }

  lemma JobFiled(n: Platform, a: Launch, job: Job)
    requires IsJob(n, job)
    ensures KeyOf(n, a, job) in AllProgs(Some(n), a)
  {
    var jobs := ConcernJobs(n, |n.concerns|);
    var i :| 0 <= i < |jobs| && jobs[i] == job;
    FiledAt(Mapped(Expander(n, a), jobs), i);
  }

  /** Programs of different places have different keys. */
  lemma KeysDiffer(p: Platform, name: string, environment: string, a: Launch, x: Place, y: Place)
    requires Accepts(p, name, environment) && Plain(Normalized(p), a) && IsPlace(Normalized(p), x)
             && IsPlace(Normalized(p), y) && x != y
    ensures var n := Normalized(p);
            IsJob(n, Job(x, 0)) && IsJob(n, Job(y, 0)) && KeyOf(n, a, Job(x, 0)) != KeyOf(n, a, Job(y, 0))
  {
    var n := Normalized(p);
    PlaceOk(p, name, environment, a, x);
    PlaceOk(p, name, environment, a, y);
    var cx, cy := n.concerns[x.concern], n.concerns[y.concern];
    var s, t := SlotAt(n, cx, cx.topics[x.topic], x.partition), SlotAt(n, cy, cy.topics[y.topic], y.partition);
    SlotKeyDetermines(SettingOf(n, a), s, TemplateOf(n, Job(x, 0)), t, TemplateOf(n, Job(y, 0)));
    PlacesDiffer(p, name, environment, x, y);
  }

  /** Concern names are unique, and topic names within a concern. */
  lemma PlacesDiffer(p: Platform, name: string, environment: string, x: Place, y: Place)
    requires Accepts(p, name, environment) && x != y
    requires HasTopic(Normalized(p), x.concern, x.topic) && HasTopic(Normalized(p), y.concern, y.topic)
    ensures var n := Normalized(p);
            || n.concerns[x.concern].name != n.concerns[y.concern].name || x.partition != y.partition
            || TopicAt(n, x.concern, x.topic).name != TopicAt(n, y.concern, y.topic).name
  {
    var cs := InitConcerns(p);
    if x.concern == y.concern {
      assert ConcernOk(p, cs[x.concern], ClusterNames(p.clusters));
      TopicsDiffer(cs[x.concern].topics, x.topic, y.topic);
    } else {
      ConcernsDiffer(p.concerns, x.concern, y.concern);
    }
  }

  lemma TopicsDiffer(ts: seq<TopicSet>, i: nat, j: nat)
    requires UniqueTopics(ts) && i < |ts| && j < |ts|
    ensures ts[i].name == ts[j].name ==> i == j
  {
  }

  lemma ConcernsDiffer(cs: seq<Concern>, i: nat, j: nat)
    requires UniqueConcerns(cs) && i < |cs| && j < |cs|
    ensures cs[i].name == cs[j].name ==> i == j
  {
  }

  // ---------- building the programs ----------

  ghost predicate NoAts(m: map<string, string>) { forall k :: k in m ==> '@' !in m[k] }

  ghost predicate Templates(ss: seq<string>) { forall i :: 0 <= i < |ss| ==> Template(ss[i], Keys()) }

  ghost predicate TemplateProgram(t: Program) {
    Template(t.name, Keys()) && Template(t.abbrev, Keys()) && Templates(t.args)
  }

  /** Every '@' of the template starts a key, and no value has one: the order of the
      substitutions does not matter. */
  ghost predicate Clear(t: Program, m: map<string, string>) {
    m.Keys == Keys() && NoAts(m) && TemplateProgram(t)
  }

  ghost predicate Steady(p: Platform, a: Launch) {
    forall job :: IsJob(p, job) ==> Clear(TemplateOf(p, job), JobValues(p, a, job))
  }

  lemma TemplateCat(a: string, b: string, keys: set<string>)
    requires Template(a, keys) && Template(b, keys)
    ensures Template(a + b, keys)
  {
    var s := a + b;
    forall i | 0 <= i < |s| && s[i] == '@' ensures exists k :: k in keys && k <= s[i..] {
      if i < |a| {
        var k :| k in keys && k <= a[i..];
        assert s[i..] == a[i..] + b;
      } else {
        var k :| k in keys && k <= b[i - |a|..];
        assert s[i..] == b[i - |a|..];
      }
    }
  }

  lemma SimpleTemplate(s: string)
    requires s in Keys() || '@' !in s
    ensures Template(s, Keys())
  {
    if s in Keys() {
      OrderGood();
      KeyTemplate(s, Keys());
    }
  }

  lemma KeyTemplate(s: string, keys: set<string>)
    requires s in keys && IsKey(s)
    ensures Template(s, keys)
  {
    forall i | 1 <= i < |s| ensures s[i] != '@' { assert s[1..][i - 1] == s[i]; }
    assert s <= s[0..];
  }

  lemma NameTemplate(name: string)
    requires SimpleName(name)
    ensures Template(name, Keys())
  {
    var prefix, k :| name == prefix + k && k in Keys() && '@' !in prefix && ' ' !in prefix;
    SimpleTemplate(prefix);
    SimpleTemplate(k);
    TemplateCat(prefix, k, Keys());
  }

  /** The abbreviations end with the concern and the partition. */
  lemma AbbrevTemplate(front: string)
    requires '@' !in front
    ensures Template(front + "/@concern/@partition", Keys())
  {
    InKeys(5);
    InKeys(9);
    TwoKeys("/", ORDER[5], ORDER[9]);
    assert "/" + (ORDER[5] + ("/" + ORDER[9])) == "/@concern/@partition";
    SimpleTemplate(front);
    TemplateCat(front, "/@concern/@partition", Keys());
  }

  lemma TwoKeys(slash: string, a: string, b: string)
    requires '@' !in slash && a in Keys() && b in Keys()
    ensures Template(slash + (a + (slash + b)), Keys())
  {
    SimpleTemplate(slash);
    SimpleTemplate(a);
    SimpleTemplate(b);
    TemplateCat(slash, b, Keys());
    TemplateCat(a, slash + b, Keys());
    TemplateCat(slash, a + (slash + b), Keys());
  }

  lemma GeneratedTemplate(t: Program, front: string)
    requires Generated(t) && t.abbrev == front + "/@concern/@partition" && '@' !in front
    ensures TemplateProgram(t)
  {
    NameTemplate(t.name);
    AbbrevTemplate(front);
    forall i | 0 <= i < |t.args| ensures Template(t.args[i], Keys()) { SimpleTemplate(t.args[i]); }
  }

  lemma StorageTemplate(command: string, name: string, mark: string)
    requires PlainText(name) && PlainText(command) && '@' !in mark
    ensures TemplateProgram(StorageProgram(command, name, mark))
  {
    StorageGenerated(command, name, mark);
    GeneratedTemplate(StorageProgram(command, name, mark), "s/" + mark + name);
  }

  lemma {:induction false} StorageTemplates(ts: seq<StorageTarget>, primary: bool)
    requires forall i :: 0 <= i < |ts| ==> PlainText(ts[i].name)
    ensures forall t :: t in StoragePrograms(ts, primary) ==> TemplateProgram(t)
  {
    if ts != [] {
      StorageTemplates(ts[1..], primary);
      if primary { StorageTemplate("storage", ts[0].name, "*");
                   } else { StorageTemplate("storage-scnd", ts[0].name, ""); }
    }
  }

  lemma ProcessTemplate()
    ensures TemplateProgram(ProcessProgram())
  {
    ProcessGenerated();
    assert ProcessProgram().abbrev == "p" + "/@concern/@partition";
    GeneratedTemplate(ProcessProgram(), "p");
  }

  lemma ApecsTemplates(name: string, ts: seq<StorageTarget>)
    requires forall i :: 0 <= i < |ts| ==> PlainText(ts[i].name)
    ensures forall t :: t in ApecsPrograms(name, ts) ==> TemplateProgram(t)
  {
    StorageTemplates(ts, true);
    StorageTemplates(ts, false);
    ProcessTemplate();
  }

  /** The programs a definition gives for topics of its other concerns are templates. */
  ghost predicate OwnTemplates(n: Platform) {
    forall job :: IsJob(n, job) && !n.concerns[job.place.concern].kind.APECS? ==> TemplateProgram(TemplateOf(n, job))
  }

  lemma AcceptedTemplate(p: Platform, job: Job)
    requires OwnTemplates(Normalized(p)) && IsJob(Normalized(p), job)
    requires forall i :: 0 <= i < |p.targets| ==> PlainText(p.targets[i].name)
    ensures TemplateProgram(TemplateOf(Normalized(p), job))
  {
    var n, i, j := Normalized(p), job.place.concern, job.place.topic;
    if n.concerns[i].kind.APECS? {
      assert n.concerns[i] == InitConcern(p.concerns[i], AdminOf(p.clusters), p.targets);
      ApecsTemplates(n.concerns[i].topics[j].name, p.targets);
    }
  }

  /** For an accepted platform with plain values the order never matters. */
  lemma AcceptedSteady(p: Platform, name: string, environment: string, a: Launch)
    requires Accepts(p, name, environment) && Plain(Normalized(p), a) && OwnTemplates(Normalized(p))
    ensures Steady(Normalized(p), a)
  {
    var n := Normalized(p);
    forall job | IsJob(n, job) ensures Clear(TemplateOf(n, job), JobValues(n, a, job)) {
      AcceptedSlot(p, name, environment, a, job.place);
      AcceptedTemplate(p, job);
      var c := n.concerns[job.place.concern];
      SlotPlain(SettingOf(n, a), SlotAt(n, c, TopicAt(n, job.place.concern, job.place.topic), job.place.partition));
    }
  }

  lemma ExpandedTemplate(s: string, m: map<string, string>) returns (ts: seq<Token>)
    requires m.Keys == Keys() && NoAts(m) && Template(s, Keys())
    ensures Reads(ts, s, m) && Render(ts, m, m.Keys) == Expanded(s, m)
  {
    OrderKeysGood(AnOrder());
    KeysInOrder(m, AnOrder());
    ts := Tokenize(s, m);
    RendersInOrder(ts, m, AnOrder());
  }

  method Subst(s: string, m: map<string, string>) returns (r: string)
    requires m.Keys == Keys()
    ensures NoAts(m) && Template(s, Keys()) ==> r == Expanded(s, m)
  {
    ghost var ts: seq<Token> := [];
    if NoAts(m) && Template(s, Keys()) { ts := ExpandedTemplate(s, m); }
    KeysNotEmpty(m);
    r := SubstStr(s, m, ts);
  }

  lemma KeysNotEmpty(m: map<string, string>)
    requires m.Keys == Keys()
    ensures forall k :: k in m ==> k != ""
  {
    OrderKeysGood(AnOrder());
  }

  lemma ArgsMore(args: seq<string>, i: nat, m: map<string, string>)
    requires m.Keys == Keys() && i < |args|
    ensures ExpandArgs(args[..i + 1], m) == ExpandArgs(args[..i], m) + [Expanded(args[i], m)]
  {
  }

  method SubstAll(args: seq<string>, m: map<string, string>) returns (r: seq<string>)
    requires m.Keys == Keys()
    ensures NoAts(m) && Templates(args) ==> r == ExpandArgs(args, m)
  {
    r := [];
    for i := 0 to |args|
      invariant NoAts(m) && Templates(args) ==> r == ExpandArgs(args[..i], m)
    {
      var arg := Subst(args[i], m);
      ArgsMore(args, i, m);
      r := r + [arg];
    }
    assert args[..|args|] == args;
  }

  method Expand(t: Program, m: map<string, string>) returns (e: Program)
    requires m.Keys == Keys()
    ensures Clear(t, m) ==> e == ExpandProgram(t, m)
  {
    var name := Subst(t.name, m);
    var args := SubstAll(t.args, m);
    var abbrev := Subst(t.abbrev, m);
    e := Program(name, args, abbrev);
  }

  /** The program of one partition. */
  method ExpandOne(p: Platform, a: Launch, i: nat, j: nat, k: nat, q: nat, ghost steady: bool) returns (e: Program)
    requires HasTopic(p, i, j) && k < |TopicAt(p, i, j).programs| && q < PartitionCount(TopicAt(p, i, j))
    requires steady ==> Steady(p, a)
    ensures steady ==> e == Expander(p, a)(Job(Place(i, j, q), k))
  {
    var c, t := p.concerns[i], TopicAt(p, i, j);
    SlotKeys(SettingOf(p, a), SlotAt(p, c, t, q));
    e := Expand(t.programs[k], SlotValues(SettingOf(p, a), SlotAt(p, c, t, q)));
    ghost var job := Job(Place(i, j, q), k);
    if steady {
      SteadyJob(p, a, job);
      ExpanderJob(p, a, job);
    }
  }

  lemma SteadyJob(p: Platform, a: Launch, job: Job)
    requires Steady(p, a) && IsJob(p, job)
    ensures Clear(TemplateOf(p, job), JobValues(p, a, job))
  {
  }

  lemma ExpanderJob(p: Platform, a: Launch, job: Job)
    requires IsJob(p, job)
    ensures Expander(p, a)(job) == ProgramOf(p, a, job)
  {
  }

  /** expandProgs */
  method ExpandProgs(p: Platform, a: Launch, i: nat, j: nat, ghost steady: bool) returns (progs: seq<Program>)
    requires HasTopic(p, i, j) && (steady ==> Steady(p, a))
    ensures steady ==>
              progs == Mapped(Expander(p, a), TemplateJobs(i, j, |TopicAt(p, i, j).programs|,
                                                           PartitionCount(TopicAt(p, i, j))))
  {
    var t := TopicAt(p, i, j);
    var n := PartitionCount(t);
    progs := [];
    for k := 0 to |t.programs|
      invariant steady ==> progs == Mapped(Expander(p, a), TemplateJobs(i, j, k, n))
    {
      ghost var before := TemplateJobs(i, j, k, n);
      assert before + PartitionJobs(i, j, k, 0) == before;
      for q := 0 to n
        invariant steady ==> progs == Mapped(Expander(p, a), before + PartitionJobs(i, j, k, q))
      {
        var e := ExpandOne(p, a, i, j, k, q, steady);
        progs := progs + [e];
        OneMoreJob(Expander(p, a), before, i, j, k, q);
      }
    }
  }

  lemma OneMoreJob(f: Job -> Program, before: seq<Job>, i: nat, j: nat, k: nat, q: nat)
    ensures Mapped(f, before + PartitionJobs(i, j, k, q + 1))
         == Mapped(f, before + PartitionJobs(i, j, k, q)) + [f(Job(Place(i, j, q), k))]
  {
    var job := Job(Place(i, j, q), k);
    assert before + PartitionJobs(i, j, k, q + 1) == (before + PartitionJobs(i, j, k, q)) + [job];
  }

  lemma FiledMore(ps: seq<Program>, x: Program)
    ensures Filed(ps + [x]) == Filed(ps)[ProgKey(x) := x]
  {
    assert (ps + [x])[..|ps|] == ps;
  }

  lemma {:induction false} FiledCat(a: seq<Program>, b: seq<Program>, x: Program)
    ensures Filed(a + (b + [x])) == Filed(a + b)[ProgKey(x) := x]
  {
    assert a + (b + [x]) == (a + b) + [x];
    FiledMore(a + b, x);
  }

  /** Files programs over the ones there are. */
  method FileAll(progs: map<string, Program>, exProgs: seq<Program>,
                 ghost all: seq<Program>) returns (r: map<string, Program>)
    requires progs == Filed(all)
    ensures r == Filed(all + exProgs)
  {
    r := progs;
    assert all + exProgs[..0] == all;
    for k := 0 to |exProgs|
      invariant r == Filed(all + exProgs[..k])
    {
      FiledCat(all, exProgs[..k], exProgs[k]);
      assert exProgs[..k + 1] == exProgs[..k] + [exProgs[k]];
      r := r[ProgKey(exProgs[k]) := exProgs[k]];
    }
    assert exProgs[..|exProgs|] == exProgs;
  }

  lemma NextTopic(f: Job -> Program, p: Platform, i: nat, j: nat)
    requires HasTopic(p, i, j)
    ensures var t := TopicAt(p, i, j);
            Mapped(f, TopicJobs(p, i, j + 1)) == Mapped(f, TopicJobs(p, i,
                                                                     j)) + Mapped(f, TemplateJobs(i, j, |t.programs|,
                                                                                                  PartitionCount(t)))
  {
    var t := TopicAt(p, i, j);
    MappedCat(f, TopicJobs(p, i, j), TemplateJobs(i, j, |t.programs|, PartitionCount(t)));
  }

  /** The programs of one concern filed over those of the concerns before. */
  method FileConcern(n: Platform, a: Launch, i: nat, progs: map<string, Program>, ghost all: seq<Program>,
                     ghost steady: bool)
      returns (r: map<string, Program>, ghost more: seq<Program>)
    requires i < |n.concerns| && progs == Filed(all) && (steady ==> Steady(n, a))
    ensures r == Filed(all + more) && (steady ==>
                                         more == Mapped(Expander(n, a), TopicJobs(n, i, |n.concerns[i].topics|)))
  {
    r, more := progs, [];
    assert all + more == all;
    for j := 0 to |n.concerns[i].topics|
      invariant r == Filed(all + more) && (steady ==> more == Mapped(Expander(n, a), TopicJobs(n, i, j)))
    {
      var exProgs := ExpandProgs(n, a, i, j, steady);
      r := FileAll(r, exProgs, all + more);
      Assoc(all, more, exProgs);
      more := more + exProgs;
      NextTopic(Expander(n, a), n, i, j);
    }
  }

  /** getAllProgs */
  method GetAllProgs(p: Option<Platform>, a: Launch) returns (progs: map<string, Program>)
    ensures Keyed(progs) && (p.Some? && Steady(p.value, a) ==> progs == AllProgs(p, a))
    ensures p.None? ==> progs == map[]
  {
    progs := map[];
    if p.None? { return; }
    var n := p.value;
    ghost var steady := Steady(n, a);
    ghost var all: seq<Program> := [];
    for i := 0 to |n.concerns|
      invariant progs == Filed(all) && (steady ==> all == Mapped(Expander(n, a), ConcernJobs(n, i)))
    {
      ghost var more;
      progs, more := FileConcern(n, a, i, progs, all, steady);
      all := all + more;
      MappedCat(Expander(n, a), ConcernJobs(n, i), TopicJobs(n, i, |n.concerns[i].topics|));
    }
    FiledKeys(all);
  }

  // ---------- what changes between two definitions ----------

  /** The keys of a map, in any order. */
  method Listed(keys: set<string>) returns (r: seq<string>)
    ensures forall k :: k in keys <==> k in r
  {
    r := [];
    var todo := keys;
    while todo != {}
      invariant todo <= keys && forall k :: k in keys <==> k in todo || k in r
      decreases |todo|
    {
      var k :| k in todo;
      todo := todo - {k};
      r := r + [k];
    }
  }

  /** The programs of `these` whose key is not in `those`, in any order. */
  method NotAmong(these: map<string, Program>, those: map<string, Program>) returns (r: seq<Program>)
    requires Keyed(these)
    ensures KeysOf(r) == these.Keys - those.Keys && forall p :: p in r ==> p in these.Values
  {
    var keys := Listed(these.Keys);
    r := [];
    ghost var added: set<string> := {};
    assert KeysOf(r) == added;
    for i := 0 to |keys|
      invariant KeysOf(r) == added && forall p :: p in r ==> p in these.Values
      invariant forall k :: k in added <==> k in keys[..i] && k !in those
    {
      var k := keys[i];
      assert k in keys && k in these;
      if k !in those {
        KeysAppend(r, these[k]);
        r := r + [these[k]];
        added := added + {k};
      }
      assert keys[..i + 1] == keys[..i] + [k];
    }
    assert keys[..|keys|] == keys;
  }

  /** The programs to stop and to start when the definition `rhs` is replaced by `lhs`. */
  method Diff(lhs: Option<Platform>, rhs: Option<Platform>,
              a: Launch) returns (toStop: seq<Program>, toStart: seq<Program>)
    requires (lhs.Some? ==> Steady(lhs.value, a)) && (rhs.Some? ==> Steady(rhs.value, a))
    ensures KeysOf(toStart) == AllProgs(lhs, a).Keys - AllProgs(rhs, a).Keys
    ensures KeysOf(toStop) == AllProgs(rhs, a).Keys - AllProgs(lhs, a).Keys
    ensures (forall p :: p in toStart ==> p in AllProgs(lhs, a).Values) && forall p ::
              p in toStop ==> p in AllProgs(rhs, a).Values
  {
    var newProgs := GetAllProgs(lhs, a);
    var oldProgs := GetAllProgs(rhs, a);
    toStart := NotAmong(newProgs, oldProgs);
    toStop := NotAmong(oldProgs, newProgs);
  }

  // ---------- the runner ----------

  /** What starting a program meets: no runnable can be made, it does not start, or it runs. */
  datatype Start = NoRunnable | WontStart | Up

  /** The running programs. */
  class Runner {
    var running: map<string, Program>

    constructor ()
      ensures running == map[]
    {
      running := map[];
    }

    /** updateRunning. An error of newRunnableFunc is only logged, and starting its missing
        runnable panics: the result says whether the runner goes on. */
    method UpdateRunning(start: bool, p: Program, meets: Start) returns (ok: bool)
      modifies this
      ensures ok <==> !(start && ProgKey(p) !in old(running) && meets.NoRunnable?)
      ensures running == if !start then old(running) - {ProgKey(p)}
                         else if ProgKey(p) !in old(running) && meets.Up? then old(running)[ProgKey(p) := p]
                         else old(running)
    {
      var key := ProgKey(p);
      ok := true;
      if start {
        if key in running { return; }
        if meets.NoRunnable? { return false; }
        if meets.WontStart? { return; }
        running := running[key := p];
      } else {
        if key !in running {
          assert running - {key} == running;
          return;
        }
        running := running - {key};
      }
    }

    method StopAll(toStop: seq<Program>)
      modifies this
      ensures running == old(running) - KeysOf(toStop)
    {
      assert KeysOf(toStop[..0]) == {} && running - {} == running;
      for i := 0 to |toStop|
        invariant running == old(running) - KeysOf(toStop[..i])
      {
        var ok := UpdateRunning(false, toStop[i], Up);
        assert toStop[..i + 1] == toStop[..i] + [toStop[i]];
        KeysAppend(toStop[..i], toStop[i]);
      }
      assert toStop[..|toStop|] == toStop;
    }

    /** `meets` says what the program under a key meets. */
    method StartAll(toStart: seq<Program>, meets: string -> Start) returns (ok: bool)
      requires forall p :: p in toStart ==> ProgKey(p) !in running
      modifies this
      ensures ok <==> forall key :: key in KeysOf(toStart) ==> !meets(key).NoRunnable?
      ensures ok ==> running.Keys == old(running.Keys) + Upcoming(KeysOf(toStart), meets)
      ensures forall key :: key in old(running) ==> key in running && running[key] == old(running)[key]
    {
      assert KeysOf(toStart[..0]) == {} && Upcoming({}, meets) == {};
      for i := 0 to |toStart|
        invariant running.Keys == old(running.Keys) + Upcoming(KeysOf(toStart[..i]), meets)
        invariant forall key :: key in KeysOf(toStart[..i]) ==> !meets(key).NoRunnable?
        invariant forall key :: key in old(running) ==> key in running && running[key] == old(running)[key]
      {
        var p := toStart[i];
        assert p in toStart && toStart[..i + 1] == toStart[..i] + [p];
        KeysAppend(toStart[..i], p);
        ok := UpdateRunning(true, p, meets(ProgKey(p)));
        if !ok {
          assert ProgKey(p) in KeysOf(toStart);
          return;
        }
      }
      assert toStart[..|toStart|] == toStart;
      ok := true;
    }

    /** A new definition: the stops of the difference, then its starts. What is left running
        are the programs both definitions have and the new ones that come up. */
    method Migrate(lhs: Option<Platform>, rhs: Option<Platform>, a: Launch, meets: string -> Start) returns (ok: bool)
      requires (lhs.Some? ==> Steady(lhs.value, a)) && (rhs.Some? ==> Steady(rhs.value, a))
      requires running.Keys == AllProgs(rhs, a).Keys
      modifies this
      ensures var new_, old_ := AllProgs(lhs, a).Keys, AllProgs(rhs, a).Keys;
              && (ok <==> forall key :: key in new_ - old_ ==> !meets(key).NoRunnable?)
              && (ok ==> running.Keys == (new_ * old_) + Upcoming(new_ - old_, meets))
              && (ok && (forall key :: key in new_ - old_ ==> meets(key).Up?) ==> running.Keys == new_)
              && forall key :: key in new_ * old_ ==> key in running && running[key] == old(running)[key]
    {
      var toStop, toStart := Diff(lhs, rhs, a);
      StopAll(toStop);
      assert forall p :: p in toStart ==> ProgKey(p) in KeysOf(toStart);
      ok := StartAll(toStart, meets);
    }
  }

  /** The keys whose program comes up. */
  function Upcoming(keys: set<string>, meets: string -> Start): set<string> { set key | key in keys && meets(key).Up? }
}
