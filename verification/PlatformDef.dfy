/**
 Platform definitions (pkg/rkcy/platform_def.go): NewRtPlatformDef checks a definition and
 fills in what is missing. The result is the definition as it is left, or none for an error
 or a fatal name. Update time and hash are left out; repeated fields hold no nil.
 */
module PlatformDefs {
  import opened Wrappers
  import opened Topics

  const MAX_PARTITION := 1024

  datatype Cluster = Cluster(name: string, brokers: string, isAdmin: bool)
  datatype StorageTarget = StorageTarget(name: string, kind: string, isPrimary: bool)
  datatype Topic = Topic(generation: int, cluster: string, partitionCount: int)
  datatype Program = Program(name: string, args: seq<string>, abbrev: string)
  datatype TopicSet = TopicSet(name: string, current: Option<Topic>, future: Option<Topic>, programs: seq<Program>)
  datatype Concern = Concern(kind: ConcernType, name: string, topics: seq<TopicSet>)
  datatype Platform = Platform(name: string, environment: string, clusters: seq<Cluster>, targets: seq<StorageTarget>,
                               concerns: seq<Concern>)

  // ---------- clusters and storage targets ----------

  predicate ClusterOk(c: Cluster) { c.name != "" && c.brokers != "" }

  predicate TargetOk(t: StorageTarget) { t.name != "" && t.kind != "" }

  predicate UniqueClusters(cs: seq<Cluster>) { forall i, j :: 0 <= i < j < |cs| ==> cs[i].name != cs[j].name }

  predicate UniqueTargets(ts: seq<StorageTarget>) { forall i, j :: 0 <= i < j < |ts| ==> ts[i].name != ts[j].name }

  predicate OneAdmin(cs: seq<Cluster>, admin: Cluster) {
    exists i :: 0 <= i < |cs| && cs[i] == admin && cs[i].isAdmin
                && forall j :: 0 <= j < |cs| && cs[j].isAdmin ==> j == i
  }

  predicate OnePrimary(ts: seq<StorageTarget>, primary: string) {
    exists i :: 0 <= i < |ts| && ts[i].name == primary && ts[i].isPrimary
                && forall j :: 0 <= j < |ts| && ts[j].isPrimary ==> j == i
  }

  function ClusterNames(cs: seq<Cluster>): set<string> { set c | c in cs :: c.name }

  /** The admin cluster, if the clusters are accepted. */
  method CheckClusters(cs: seq<Cluster>) returns (admin: Option<Cluster>, names: set<string>)
    ensures admin.Some? <==> (forall i :: 0 <= i < |cs| ==> ClusterOk(cs[i])) && UniqueClusters(cs) && exists a ::
                               OneAdmin(cs, a)
    ensures admin.Some? ==> OneAdmin(cs, admin.value) && names == ClusterNames(cs)
  {
    admin, names := None, {};
    ghost var at := -1;
    for i := 0 to |cs|
      invariant names == set c | c in cs[..i] :: c.name
      invariant forall j :: 0 <= j < i ==> ClusterOk(cs[j])
      invariant UniqueClusters(cs[..i])
      invariant admin.None? ==> forall j :: 0 <= j < i ==> !cs[j].isAdmin
      invariant admin.Some? ==> 0 <= at < i && cs[at] == admin.value && cs[at].isAdmin && forall j ::
                                  0 <= j < i && cs[j].isAdmin ==> j == at
    {
      var c := cs[i];
      if c.name == "" || c.brokers == "" {
        assert !ClusterOk(cs[i]);
        return None, names;
      }
      if c.isAdmin {
        if admin.Some? {
          TwoAdmins(cs, at, i);
          return None, names;
        }
        admin, at := Some(c), i;
      }
      if c.name in names {
        var d :| d in cs[..i] && d.name == c.name;
        var j :| 0 <= j < i && cs[..i][j] == d;
        assert !UniqueClusters(cs) by { assert cs[j].name == cs[i].name; }
        return None, names;
      }
      names := names + {c.name};
      assert cs[..i + 1] == cs[..i] + [c];
    }
    assert cs[..|cs|] == cs;
    if admin.Some? {
      assert cs[at] == admin.value;
      assert OneAdmin(cs, admin.value);
    } else {
      assert forall a :: !OneAdmin(cs, a);
    }
  }

  lemma TwoAdmins(cs: seq<Cluster>, i: int, j: int)
    requires 0 <= i < j < |cs| && cs[i].isAdmin && cs[j].isAdmin
    ensures forall a :: !OneAdmin(cs, a)
  {
  }

  /** The primary storage target, if the targets are accepted. */
  method CheckTargets(ts: seq<StorageTarget>) returns (primary: Option<string>)
    ensures primary.Some? <==> (forall i :: 0 <= i < |ts| ==> TargetOk(ts[i])) && UniqueTargets(ts) && exists p ::
                                 OnePrimary(ts, p)
    ensures primary.Some? ==> OnePrimary(ts, primary.value)
  {
    var names: set<string> := {};
    primary := None;
    ghost var at := -1;
    for i := 0 to |ts|
      invariant names == set t | t in ts[..i] :: t.name
      invariant forall j :: 0 <= j < i ==> TargetOk(ts[j])
      invariant UniqueTargets(ts[..i])
      invariant primary.None? ==> forall j :: 0 <= j < i ==> !ts[j].isPrimary
      invariant primary.Some? ==> 0 <= at < i && ts[at].name == primary.value && ts[at].isPrimary && forall j ::
                                    0 <= j < i && ts[j].isPrimary ==> j == at
    {
      var t := ts[i];
      if t.name == "" || t.kind == "" {
        assert !TargetOk(ts[i]);
        return None;
      }
      if t.isPrimary {
        if primary.Some? {
          TwoPrimaries(ts, at, i);
          return None;
        }
        primary, at := Some(t.name), i;
      }
      if t.name in names {
        var d :| d in ts[..i] && d.name == t.name;
        var j :| 0 <= j < i && ts[..i][j] == d;
        assert !UniqueTargets(ts) by { assert ts[j].name == ts[i].name; }
        return None;
      }
      names := names + {t.name};
      assert ts[..i + 1] == ts[..i] + [t];
    }
    assert ts[..|ts|] == ts;
    if primary.Some? {
      assert ts[at].name == primary.value;
      assert OnePrimary(ts, primary.value);
    } else {
      assert forall p :: !OnePrimary(ts, p);
    }
  }

  lemma TwoPrimaries(ts: seq<StorageTarget>, i: int, j: int)
    requires 0 <= i < j < |ts| && ts[i].isPrimary && ts[j].isPrimary
    ensures forall p :: !OnePrimary(ts, p)
  {
  }

  // ---------- topics ----------

  function InitTopic(t: Option<Topic>, admin: string): Topic {
    var t := if t.None? then Topic(0, "", 0) else t.value;
    Topic(if t.generation <= 0 then 1 else t.generation,
          if t.cluster == "" then admin else t.cluster,
          if t.partitionCount <= 0 then 1 else if t.partitionCount > MAX_PARTITION then MAX_PARTITION
          else t.partitionCount)
  }

  /** The rest of every generated argument list. */
  const COMMON_ARGS := ["-e", "@environment", "--otelcol_endpoint", "@otelcol_endpoint", "--admin_brokers",
                        "@admin_brokers",
                        "--consumer_brokers", "@consumer_brokers", "--stream", "@stream"]

  function ProcessProgram(): Program {
    Program("./@platform", ["process", "-t", "@topic", "-p", "@partition"] + COMMON_ARGS, "p/@concern/@partition")
  }

  function StorageProgram(command: string, target: string, mark: string): Program {
    Program("./@platform", [command, "-t", "@topic", "-p", "@partition", "--storage_target", target] + COMMON_ARGS,
            "s/" + mark + target + "/@concern/@partition")
  }

  function StoragePrograms(ts: seq<StorageTarget>, primary: bool): seq<Program> {
    if ts == [] then []
    else (if ts[0].isPrimary == primary
          then [if primary then StorageProgram("storage", ts[0].name, "*")
                else StorageProgram("storage-scnd", ts[0].name, "")] else [])
         + StoragePrograms(ts[1..], primary)
  }

  function ApecsPrograms(name: string, ts: seq<StorageTarget>): seq<Program> {
    if name == "process" then [ProcessProgram()]
    else if name == "storage" then StoragePrograms(ts, true)
    else if name == "storage-scnd" then StoragePrograms(ts, false)
    else []
  }

  function InitTopics(t: TopicSet, admin: string, kind: ConcernType, ts: seq<StorageTarget>): TopicSet {
    TopicSet(t.name, Some(InitTopic(t.current, admin)), if t.future.Some? then Some(InitTopic(t.future, admin))
             else None,
             if kind.APECS? then ApecsPrograms(t.name, ts) else t.programs)
  }

  predicate IsACETopic(name: string) { name == "admin" || name == "error" || name == "complete" }

  predicate ValidTopic(t: Topic, clusters: set<string>) {
    t.generation != 0 && t.cluster != "" && t.cluster in clusters && 1 <= t.partitionCount <= MAX_PARTITION
  }

  predicate ValidTopics(t: TopicSet, clusters: set<string>) {
    && t.name != ""
    && (IsACETopic(t.name) ==> (t.current.Some? ==> t.current.value.partitionCount == 1)
                               && (t.future.Some? ==> t.future.value.partitionCount == 1))
    && t.current.Some? && ValidTopic(t.current.value, clusters)
    && (t.future.Some? ==> ValidTopic(t.future.value, clusters)
                           && t.current.value.generation == t.future.value.generation + 1)
    && forall i :: 0 <= i < |t.programs| ==> t.programs[i].name != "" && t.programs[i].abbrev != ""
  }

  // ---------- concerns ----------

  function RequiredTopics(kind: ConcernType): seq<string> {
    if kind.APECS? then ["admin", "process", "error", "complete", "storage", "storage-scnd"] else ["admin", "error"]
  }

  function TopicNames(ts: seq<TopicSet>): seq<string> { seq(|ts|, i requires 0 <= i < |ts| => ts[i].name) }

  /** A topic for every required name that is missing, in order. */
  function Missing(required: seq<string>, names: seq<string>): seq<TopicSet> {
    if required == [] then []
    else (if required[0] in names then [] else [TopicSet(required[0], None, None, [])]) + Missing(required[1..], names)
  }

  function Complete(c: Concern): seq<TopicSet> { c.topics + Missing(RequiredTopics(c.kind), TopicNames(c.topics)) }

  function InitAll(ts: seq<TopicSet>, admin: string, kind: ConcernType, targets: seq<StorageTarget>): seq<TopicSet> {
    seq(|ts|, i requires 0 <= i < |ts| => InitTopics(ts[i], admin, kind, targets))
  }

  predicate UniqueTopics(ts: seq<TopicSet>) { forall i, j :: 0 <= i < j < |ts| ==> ts[i].name != ts[j].name }

  /** The names the topic names are built from. */
  predicate NamesBuild(platform: string, environment: string, c: Concern) {
    IsValidName(platform) && IsValidName(environment) && IsValidName(c.name) && forall i ::
          0 <= i < |c.topics| ==> IsValidName(c.topics[i].name)
  }

  predicate ConcernOk(p: Platform, c: Concern, clusters: set<string>) {
    && c.name != "" && (c.kind.APECS? ==> |c.topics| == 6)
    && (forall i :: 0 <= i < |c.topics| ==> ValidTopics(c.topics[i], clusters))
    && UniqueTopics(c.topics) && (c.topics != [] ==> NamesBuild(p.name, p.environment, c))
    // the runtime topics repeat one check
    && (forall i :: 0 <= i < |c.topics| && IsACETopic(c.topics[i].name) ==>
                      c.topics[i].current.value.partitionCount == 1)
  }

  function InitConcern(c: Concern, admin: string, targets: seq<StorageTarget>): Concern {
    c.(topics := InitAll(Complete(c), admin, c.kind, targets))
  }

  // ---------- the whole definition ----------

  ghost predicate ClustersOk(cs: seq<Cluster>) {
    (forall i :: 0 <= i < |cs| ==> ClusterOk(cs[i])) && UniqueClusters(cs) && exists a :: OneAdmin(cs, a)
  }

  ghost predicate TargetsOk(ts: seq<StorageTarget>) {
    (forall i :: 0 <= i < |ts| ==> TargetOk(ts[i])) && UniqueTargets(ts) && exists p :: OnePrimary(ts, p)
  }

  function AdminOf(cs: seq<Cluster>): string {
    if cs == [] then "" else if cs[0].isAdmin then cs[0].name else AdminOf(cs[1..])
  }

  lemma {:induction false} AdminIs(cs: seq<Cluster>, i: nat)
    requires i < |cs| && cs[i].isAdmin && forall j :: 0 <= j < |cs| && cs[j].isAdmin ==> j == i
    ensures AdminOf(cs) == cs[i].name
  {
    if i > 0 {
      assert !cs[0].isAdmin;
      AdminIs(cs[1..], i - 1);
    }
  }

  function InitConcerns(p: Platform): seq<Concern> {
    seq(|p.concerns|, i requires 0 <= i < |p.concerns| => InitConcern(p.concerns[i], AdminOf(p.clusters), p.targets))
  }

  function Normalized(p: Platform): Platform { p.(concerns := InitConcerns(p)) }

  predicate UniqueConcerns(cs: seq<Concern>) { forall i, j :: 0 <= i < j < |cs| ==> cs[i].name != cs[j].name }

  ghost predicate Accepts(p: Platform, name: string, environment: string) {
    && p.name == name && p.environment == environment && ClustersOk(p.clusters) && TargetsOk(p.targets)
    && UniqueConcerns(p.concerns)
    && forall i :: 0 <= i < |p.concerns| ==> ConcernOk(p, InitConcerns(p)[i], ClusterNames(p.clusters))
  }

  method FillIn(c: Concern) returns (topics: seq<TopicSet>)
    ensures topics == Complete(c)
  {
    topics := c.topics;
    var names := TopicNames(c.topics);
    var required := RequiredTopics(c.kind);
    for i := 0 to |required|
      invariant topics + Missing(required[i..], names) == Complete(c)
    {
      var req := required[i];
      assert required[i..][0] == req && required[i..][1..] == required[i + 1..];
      ghost var before := topics;
      if req !in names {
        topics := topics + [TopicSet(req, None, None, [])];
        assert before + ([TopicSet(req, None, None, [])] + Missing(required[i + 1..], names))
                 == topics + Missing(required[i + 1..], names);
      } else {
        assert [] + Missing(required[i + 1..], names) == Missing(required[i + 1..], names);
      }
    }
    assert required[|required|..] == [] && topics + [] == topics;
  }

  predicate AllValid(ts: seq<TopicSet>, clusters: set<string>) {
    forall i :: 0 <= i < |ts| ==> ValidTopics(ts[i], clusters)
  }

  /** Every topic is filled in and validated, in place. */
  method InitAndValidate(given: seq<TopicSet>, admin: string, kind: ConcernType, targets: seq<StorageTarget>,
                         clusters: set<string>)
    returns (topics: seq<TopicSet>, ok: bool)
    ensures ok ==> topics == InitAll(given, admin, kind, targets)
    ensures ok <==> AllValid(InitAll(given, admin, kind, targets), clusters)
  {
    topics := given;
    ghost var goal := InitAll(given, admin, kind, targets);
    for i := 0 to |topics|
      invariant |topics| == |given| == |goal|
      invariant forall j :: 0 <= j < i ==> topics[j] == goal[j] && ValidTopics(goal[j], clusters)
      invariant forall j :: i <= j < |given| ==> topics[j] == given[j]
    {
      topics := topics[i := InitTopics(topics[i], admin, kind, targets)];
      if !ValidTopics(topics[i], clusters) {
        assert !ValidTopics(goal[i], clusters);
        return topics, false;
      }
    }
    assert topics == goal;
    ok := true;
  }

  /** newRtConcern: topic names are unique and topic names can be built. */
  predicate RuntimeOk(p: Platform, c: Concern)
    requires forall i :: 0 <= i < |c.topics| ==> c.topics[i].current.Some?
  {
    && UniqueTopics(c.topics) && (c.topics != [] ==> NamesBuild(p.name, p.environment, c))
    && (forall i :: 0 <= i < |c.topics| && IsACETopic(c.topics[i].name) ==>
                      c.topics[i].current.value.partitionCount == 1)
  }

  method NewRtConcern(p: Platform, c: Concern) returns (ok: bool)
    requires forall i :: 0 <= i < |c.topics| ==> c.topics[i].current.Some?
    ensures ok <==> RuntimeOk(p, c)
  {
    var topics, names := c.topics, {};
    for i := 0 to |topics|
      invariant forall n :: n in names <==> exists j :: 0 <= j < i && topics[j].name == n
      invariant forall a, b :: 0 <= a < b < i ==> topics[a].name != topics[b].name
      invariant i > 0 ==> IsValidName(p.name) && IsValidName(p.environment) && IsValidName(c.name)
      invariant forall j ::
                  0 <= j < i ==> IsValidName(topics[j].name) && (IsACETopic(topics[j].name) ==>
                                                                   topics[j].current.value.partitionCount == 1)
    {
      if topics[i].name in names {
        return false;
      }
      if !IsValidName(p.name) || !IsValidName(p.environment) || !IsValidName(c.name)
          || !IsValidName(topics[i].name) { return false; }
      if IsACETopic(topics[i].name) && topics[i].current.value.partitionCount != 1 { return false; }
      names := names + {topics[i].name};
    }
    ok := true;
  }

  method CheckConcern(p: Platform, given: Concern, admin: string, clusters: set<string>) returns (c: Concern, ok: bool)
    ensures ok ==> c == InitConcern(given, admin, p.targets)
    ensures ok <==> ConcernOk(p, InitConcern(given, admin, p.targets), clusters)
  {
    c, ok := given, false;
    if c.name == "" { return; }
    var topics := FillIn(c);
    if c.kind.APECS? && |topics| != 6 { return; }
    topics, ok := InitAndValidate(topics, admin, c.kind, p.targets, clusters);
    if !ok { return; }
    c := c.(topics := topics);
    ok := NewRtConcern(p, c);
  }

  method CheckConcerns(p: Platform, admin: string, clusters: set<string>) returns (concerns: seq<Concern>, ok: bool)
    requires admin == AdminOf(p.clusters)
    ensures ok <==> UniqueConcerns(p.concerns) && forall i ::
                      0 <= i < |p.concerns| ==> ConcernOk(p, InitConcerns(p)[i], clusters)
    ensures ok ==> concerns == InitConcerns(p)
  {
    concerns := [];
    var names: set<string> := {};
    ghost var goal := InitConcerns(p);
    for i := 0 to |p.concerns|
      invariant |concerns| == i && forall j :: 0 <= j < i ==> concerns[j] == goal[j] && ConcernOk(p, goal[j], clusters)
      invariant forall n :: n in names <==> exists j :: 0 <= j < i && p.concerns[j].name == n
      invariant forall a, b :: 0 <= a < b < i ==> p.concerns[a].name != p.concerns[b].name
    {
      var c;
      c, ok := CheckConcern(p, p.concerns[i], admin, clusters);
      assert goal[i] == InitConcern(p.concerns[i], admin, p.targets);
      if !ok { return; }
      if c.name in names { return concerns, false; }
      names := names + {c.name};
      concerns := concerns + [c];
    }
    assert concerns == goal;
    ok := true;
  }

  /** None is an error or a fatal name. */
  method NewRtPlatformDef(p: Platform, name: string, environment: string) returns (r: Option<Platform>)
    ensures r.Some? <==> Accepts(p, name, environment)
    ensures r.Some? ==> r.value == Normalized(p)
  {
    if p.name != name || p.environment != environment { return None; }
    var admin, clusters := CheckClusters(p.clusters);
    if admin.None? { return None; }
    ghost var at :| 0 <= at < |p.clusters| && p.clusters[at] == admin.value && p.clusters[at].isAdmin
                    && forall j :: 0 <= j < |p.clusters| && p.clusters[j].isAdmin ==> j == at;
    AdminIs(p.clusters, at);
    var primary := CheckTargets(p.targets);
    if primary.None? { return None; }
    var concerns, ok := CheckConcerns(p, admin.value.name, clusters);
    if !ok { return None; }
    r := Some(p.(concerns := concerns));
  }

  // ---------- what acceptance means ----------

  lemma {:induction false} MissingNames(required: seq<string>, names: seq<string>)
    ensures forall i :: 0 <= i < |Missing(required, names)| ==> Missing(required, names)[i].name in required
    ensures forall r :: r in required && r !in names ==> exists i ::
                                                           0 <= i < |Missing(required, names)|
                                                           && Missing(required, names)[i].name == r
  {
    if required != [] {
      var m, rest := Missing(required, names), Missing(required[1..], names);
      MissingNames(required[1..], names);
      var k := |m| - |rest|;
      forall i | 0 <= i < |m| ensures m[i].name in required {
        if i >= k { assert m[i] == rest[i - k]; }
      }
      forall r | r in required && r !in names ensures exists i :: 0 <= i < |m| && m[i].name == r {
        if r == required[0] {
          assert m[0].name == r;
        } else {
          assert r in required[1..];
          var i :| 0 <= i < |rest| && rest[i].name == r;
          assert m[i + k] == rest[i];
        }
      }
    }
  }

  /** After filling in, every required topic is there. */
  lemma AllRequired(c: Concern, admin: string, targets: seq<StorageTarget>)
    ensures forall r :: r in RequiredTopics(c.kind) ==> r in TopicNames(InitConcern(c, admin, targets).topics)
  {
    var required, names := RequiredTopics(c.kind), TopicNames(c.topics);
    var all, m := TopicNames(InitConcern(c, admin, targets).topics), Missing(required, names);
    MissingNames(required, names);
    forall r | r in required ensures r in all {
      if r in names {
        var i :| 0 <= i < |names| && names[i] == r;
        assert all[i] == r;
      } else {
        var i :| 0 <= i < |m| && m[i].name == r;
        assert all[|c.topics| + i] == r;
      }
    }
  }

  lemma Pigeonhole(names: seq<string>, required: seq<string>)
    requires |names| == |required| && (forall i, j :: 0 <= i < j < |required| ==> required[i] != required[j])
    requires forall r :: r in required ==> r in names
    ensures multiset(names) == multiset(required)
  {
    forall r ensures multiset(required)[r] <= multiset(names)[r] {
      OccursOnce(required, r);
    }
    assert multiset(required) <= multiset(names);
    var extra := multiset(names) - multiset(required);
    assert multiset(names) == multiset(required) + extra;
    assert |extra| == 0;
  }

  lemma {:induction false} OccursOnce(s: seq<string>, x: string)
    requires forall i, j :: 0 <= i < j < |s| ==> s[i] != s[j]
    ensures multiset(s)[x] == if x in s then 1 else 0
  {
    if s != [] {
      OccursOnce(s[1..], x);
      assert s == [s[0]] + s[1..];
    }
  }

  /** An accepted APECS concern has exactly the six required topics, once each: the bare
      length test suffices. */
  lemma SixTopics(c: Concern, admin: string, targets: seq<StorageTarget>)
    requires c.kind.APECS? && |InitConcern(c, admin, targets).topics| == 6
    ensures multiset(TopicNames(InitConcern(c, admin, targets).topics)) == multiset(RequiredTopics(APECS))
    ensures forall r :: r in RequiredTopics(APECS) ==>
                          multiset(TopicNames(InitConcern(c, admin, targets).topics))[r] == 1
  {
    AllRequired(c, admin, targets);
    var names, required := TopicNames(InitConcern(c, admin, targets).topics), RequiredTopics(APECS);
    Pigeonhole(names, required);
    forall r | r in required ensures multiset(names)[r] == 1 {
      OccursOnce(required, r);
    }
  }

  ghost predicate GoodTopic(t: Topic, clusters: set<string>) {
    1 <= t.generation && 1 <= t.partitionCount <= MAX_PARTITION && t.cluster in clusters
  }

  /** What an accepted definition looks like. */
  lemma AcceptedShape(p: Platform, name: string, environment: string)
    requires Accepts(p, name, environment)
    ensures var n := Normalized(p);
            && (exists a :: OneAdmin(n.clusters, a)) && (exists t :: OnePrimary(n.targets, t))
            && forall i :: 0 <= i < |n.concerns| ==>
                 && (n.concerns[i].kind.APECS? ==>
                       multiset(TopicNames(n.concerns[i].topics)) == multiset(RequiredTopics(APECS)))
                 && forall j :: 0 <= j < |n.concerns[i].topics| ==>
                      var t := n.concerns[i].topics[j];
                      && t.current.Some? && GoodTopic(t.current.value, ClusterNames(n.clusters))
                      && (t.future.Some? ==> GoodTopic(t.future.value, ClusterNames(n.clusters)))
                      && (IsACETopic(t.name) ==> t.current.value.partitionCount == 1)
  {
    var n := Normalized(p);
    forall i | 0 <= i < |n.concerns|
      ensures n.concerns[i].kind.APECS? ==>
                multiset(TopicNames(n.concerns[i].topics)) == multiset(RequiredTopics(APECS))
      ensures ConcernOk(p, n.concerns[i], ClusterNames(n.clusters))
    {
      assert n.concerns[i] == InitConcerns(p)[i];
      if n.concerns[i].kind.APECS? { SixTopics(p.concerns[i], AdminOf(p.clusters), p.targets); }
    }
  }

  // ---------- normalising twice ----------

  lemma {:induction false} NothingMissing(required: seq<string>, names: seq<string>)
    requires forall r :: r in required ==> r in names
    ensures Missing(required, names) == []
  {
    if required != [] {
      NothingMissing(required[1..], names);
    }
  }

  lemma InitTopicsAgain(t: TopicSet, admin: string, kind: ConcernType, targets: seq<StorageTarget>)
    requires admin != ""
    ensures var u := InitTopics(t, admin, kind, targets); InitTopics(u, admin, kind, targets) == u
  {
  }

  lemma InitConcernAgain(c: Concern, admin: string, targets: seq<StorageTarget>)
    requires admin != ""
    ensures var n := InitConcern(c, admin, targets); InitConcern(n, admin, targets) == n
  {
    var n := InitConcern(c, admin, targets);
    AllRequired(c, admin, targets);
    NothingMissing(RequiredTopics(c.kind), TopicNames(n.topics));
    assert Complete(n) == n.topics;
    forall i | 0 <= i < |n.topics| ensures InitTopics(n.topics[i], admin, c.kind, targets) == n.topics[i] {
      InitTopicsAgain(Complete(c)[i], admin, c.kind, targets);
    }
    assert InitAll(n.topics, admin, c.kind, targets) == n.topics;
  }

  /** Normalising an accepted definition again accepts it and changes nothing. */
  lemma NormalizedAgain(p: Platform, name: string, environment: string)
    requires Accepts(p, name, environment)
    ensures Accepts(Normalized(p), name, environment) && Normalized(Normalized(p)) == Normalized(p)
  {
    var n, admin := Normalized(p), AdminOf(p.clusters);
    var a :| OneAdmin(p.clusters, a);
    var at :| 0 <= at < |p.clusters| && p.clusters[at] == a && p.clusters[at].isAdmin
              && forall j :: 0 <= j < |p.clusters| && p.clusters[j].isAdmin ==> j == at;
    AdminIs(p.clusters, at);
    assert ClusterOk(p.clusters[at]) && admin != "";
    forall i | 0 <= i < |n.concerns| ensures InitConcerns(n)[i] == n.concerns[i] {
      InitConcernAgain(p.concerns[i], admin, p.targets);
    }
    assert InitConcerns(n) == n.concerns;
    forall i | 0 <= i < |n.concerns| ensures ConcernOk(n, InitConcerns(n)[i], ClusterNames(n.clusters)) {
      assert ConcernOk(p, InitConcerns(p)[i], ClusterNames(p.clusters));
    }
  }
}
