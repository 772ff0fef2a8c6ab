/**
 What normalising a platform definition does to the values it gives (initTopic and
 NewRtPlatformDef in pkg/rkcy/platform_def.go), and which given definitions are accepted.
 */
module PlatformLaws {
  import opened Wrappers
  import opened Topics
  import opened PlatformDefs

  // ---------- given values are kept, missing ones filled in ----------

  /** A positive generation, a named cluster and a partition count up to 1024 are kept; a missing
      one becomes 1, the admin cluster, and 1, and a greater count 1024. */
  predicate FilledIn(given: Option<Topic>, t: Topic, admin: string) {
    && t.generation == (if given.Some? && given.value.generation > 0 then given.value.generation else 1)
    && t.cluster == (if given.Some? && given.value.cluster != "" then given.value.cluster else admin)
    && t.partitionCount ==
         if given.None? || given.value.partitionCount <= 0 then 1
         else if given.value.partitionCount > 1024 then 1024 else given.value.partitionCount
  }

  predicate TopicsFilledIn(given: TopicSet, t: TopicSet, admin: string) {
    && t.name == given.name && t.current.Some? && FilledIn(given.current, t.current.value, admin)
    && (t.future.Some? <==> given.future.Some?) && (t.future.Some? ==> FilledIn(given.future, t.future.value, admin))
  }

  /** A concern keeps its topics in place, followed by the required ones it did not name. */
  ghost predicate ConcernFilledIn(given: Concern, c: Concern, required: set<string>, admin: string) {
    && c.name == given.name && c.kind == given.kind && |c.topics| >= |given.topics|
    && (forall i :: 0 <= i < |given.topics| ==>
          TopicsFilledIn(given.topics[i], c.topics[i], admin)
          && (given.kind != APECS ==> c.topics[i].programs == given.topics[i].programs))
    && (forall i :: |given.topics| <= i < |c.topics| ==>
          TopicsFilledIn(TopicSet(c.topics[i].name, None, None, []), c.topics[i], admin))
    && Adds(given.topics, c.topics[|given.topics|..], required)
  }

  ghost predicate Adds(given: seq<TopicSet>, added: seq<TopicSet>, required: set<string>) {
    forall r :: (exists i :: 0 <= i < |added| && added[i].name == r)
                <==> r in required && forall i :: 0 <= i < |given| ==> given[i].name != r
  }

  function Required(kind: ConcernType): set<string> {
    if kind == APECS then {"admin", "process", "error", "complete", "storage", "storage-scnd"} else {"admin", "error"}
  }

  lemma RequiredAre(kind: ConcernType)
    ensures forall r :: r in Required(kind) <==> r in RequiredTopics(kind)
  {
  }

  lemma TopicsFill(t: TopicSet, admin: string, kind: ConcernType, targets: seq<StorageTarget>)
    ensures TopicsFilledIn(t, InitTopics(t, admin, kind, targets), admin)
    ensures kind != APECS ==> InitTopics(t, admin, kind, targets).programs == t.programs
  {
  }

  lemma MissingAdds(given: seq<TopicSet>, required: seq<string>, added: seq<TopicSet>, names: set<string>)
    requires forall r :: r in names <==> r in required
    requires |added| == |Missing(required, TopicNames(given))|
    requires forall i :: 0 <= i < |added| ==> added[i].name == Missing(required, TopicNames(given))[i].name
    ensures Adds(given, added, names)
  {
    var m := Missing(required, TopicNames(given));
    MissingNames(required, TopicNames(given));
    MissingAre(required, TopicNames(given));
    assert forall i :: 0 <= i < |given| ==> TopicNames(given)[i] == given[i].name;
    forall r | r in names && r !in TopicNames(given) ensures exists i :: 0 <= i < |added| && added[i].name == r {
      var i :| 0 <= i < |m| && m[i].name == r;
      assert added[i].name == r;
    }
  }

  lemma ConcernFills(c: Concern, admin: string, targets: seq<StorageTarget>)
    ensures ConcernFilledIn(c, InitConcern(c, admin, targets), Required(c.kind), admin)
  {
    var d, n, required := InitConcern(c, admin, targets), |c.topics|, RequiredTopics(c.kind);
    RequiredAre(c.kind);
    MissingAre(required, TopicNames(c.topics));
    forall i | 0 <= i < |d.topics|
      ensures TopicsFilledIn(Complete(c)[i], d.topics[i], admin)
              && (c.kind != APECS ==> d.topics[i].programs == Complete(c)[i].programs)
    {
      TopicsFill(Complete(c)[i], admin, c.kind, targets);
    }
    MissingAdds(c.topics, required, d.topics[n..], Required(c.kind));
  }

  lemma {:induction false} MissingAre(required: seq<string>, names: seq<string>)
    ensures forall m :: m in Missing(required, names) ==> m == TopicSet(m.name, None, None, []) && m.name !in names
  {
    if required != [] {
      MissingAre(required[1..], names);
    }
  }

  /** An accepted definition keeps all it gives. */
  lemma OwnValuesKept(p: Platform, name: string, environment: string, admin: Cluster)
    requires Accepts(p, name, environment) && OneAdmin(p.clusters, admin)
    ensures var n := Normalized(p);
            && n == p.(concerns := n.concerns) && |n.concerns| == |p.concerns|
            && forall i :: 0 <= i < |p.concerns| ==>
                 ConcernFilledIn(p.concerns[i], n.concerns[i], Required(p.concerns[i].kind), admin.name)
  {
    AdminFound(p.clusters, admin);
    forall i | 0 <= i < |p.concerns|
      ensures ConcernFilledIn(p.concerns[i], Normalized(p).concerns[i], Required(p.concerns[i].kind), admin.name)
    {
      ConcernFills(p.concerns[i], admin.name, p.targets);
    }
  }

  lemma AdminFound(cs: seq<Cluster>, admin: Cluster)
    requires OneAdmin(cs, admin)
    ensures AdminOf(cs) == admin.name && admin.name in ClusterNames(cs)
  {
    var at :| 0 <= at < |cs| && cs[at] == admin && cs[at].isAdmin
              && forall j :: 0 <= j < |cs| && cs[j].isAdmin ==> j == at;
    AdminIs(cs, at);
    assert cs[at] in cs;
  }

  // ---------- which definitions are accepted ----------

  /** A given topic names no cluster or a known one. */
  predicate KnownCluster(t: Option<Topic>, clusters: set<string>) {
    t.Some? && t.value.cluster != "" ==> t.value.cluster in clusters
  }

  function GivenGeneration(t: Option<Topic>): int {
    if t.Some? && t.value.generation > 0 then t.value.generation else 1
  }

  predicate OnePartition(t: Option<Topic>) { t.Some? ==> t.value.partitionCount <= 1 }

  /** A future topic is one generation behind the current one, as the code has it. */
  predicate TopicsGivenOk(t: TopicSet, kind: ConcernType, clusters: set<string>) {
    && KnownCluster(t.current, clusters) && KnownCluster(t.future, clusters)
    && (t.future.Some? ==> GivenGeneration(t.current) == GivenGeneration(t.future) + 1)
    && (t.name == "admin" || t.name == "error" || t.name == "complete" ==>
          OnePartition(t.current) && OnePartition(t.future))
    && (kind != APECS ==> forall i :: 0 <= i < |t.programs| ==> t.programs[i].name != "" && t.programs[i].abbrev != "")
  }

  predicate ConcernGivenOk(c: Concern, clusters: set<string>) {
    && IsValidName(c.name)
    && (forall i :: 0 <= i < |c.topics| ==> IsValidName(c.topics[i].name)
                                            && TopicsGivenOk(c.topics[i], c.kind, clusters))
    && (forall i, j :: 0 <= i < j < |c.topics| ==> c.topics[i].name != c.topics[j].name)
    && (c.kind == APECS ==> forall i :: 0 <= i < |c.topics| ==> c.topics[i].name in Required(APECS))
  }

  lemma {:induction false} StorageProgramsNamed(ts: seq<StorageTarget>, primary: bool)
    ensures forall g :: g in StoragePrograms(ts, primary) ==> g.name != "" && g.abbrev != ""
  {
    if ts != [] {
      StorageProgramsNamed(ts[1..], primary);
    }
  }

  lemma ApecsProgramsNamed(name: string, ts: seq<StorageTarget>)
    ensures forall g :: g in ApecsPrograms(name, ts) ==> g.name != "" && g.abbrev != ""
  {
    StorageProgramsNamed(ts, true);
    StorageProgramsNamed(ts, false);
  }

  lemma TopicsAccepted(t: TopicSet, admin: string, kind: ConcernType, targets: seq<StorageTarget>,
                       clusters: set<string>)
    requires admin != "" && admin in clusters
    ensures ValidTopics(InitTopics(t, admin, kind, targets), clusters) <==>
              t.name != "" && TopicsGivenOk(t, kind, clusters)
  {
    ApecsProgramsNamed(t.name, targets);
    if kind.APECS? {
      var u := InitTopics(t, admin, kind, targets);
      assert forall i :: 0 <= i < |u.programs| ==> u.programs[i] in ApecsPrograms(t.name, targets);
    }
  }

  predicate NoRepeats(s: seq<string>) { forall i, j :: 0 <= i < j < |s| ==> s[i] != s[j] }

  /** Two lists without repetitions that hold the same are equally long. */
  lemma SameLength(a: seq<string>, b: seq<string>)
    requires NoRepeats(a) && NoRepeats(b) && forall x :: x in a <==> x in b
    ensures |a| == |b|
  {
    forall x ensures multiset(a)[x] == multiset(b)[x] {
      OccursOnce(a, x);
      OccursOnce(b, x);
    }
    assert multiset(a) == multiset(b);
    assert |multiset(a)| == |a| && |multiset(b)| == |b|;
  }

  lemma {:induction false} MissingUnique(required: seq<string>, names: seq<string>)
    requires NoRepeats(required)
    ensures NoRepeats(TopicNames(Missing(required, names)))
  {
    if required != [] {
      var m, rest := Missing(required, names), Missing(required[1..], names);
      MissingUnique(required[1..], names);
      MissingNames(required[1..], names);
      var k := |m| - |rest|;
      forall i, j | 0 <= i < j < |m| ensures m[i].name != m[j].name {
        assert m[j] == rest[j - k] && m[j].name in required[1..];
        if i >= k {
          assert m[i] == rest[i - k];
          assert TopicNames(rest)[i - k] != TopicNames(rest)[j - k];
        }
      }
    }
  }

  lemma RequiredNames(kind: ConcernType)
    ensures NoRepeats(RequiredTopics(kind)) && forall r :: r in RequiredTopics(kind) ==> IsValidName(r) && r != ""
  {
  }

  lemma NoRepeatsAppend(a: seq<string>, b: seq<string>)
    requires NoRepeats(b) && forall x :: x in b ==> x !in a
    ensures NoRepeats(a + b) <==> NoRepeats(a)
  {
    var s := a + b;
    if NoRepeats(s) {
      assert forall i :: 0 <= i < |a| ==> s[i] == a[i];
    }
    if NoRepeats(a) {
      forall i, j | 0 <= i < j < |s| ensures s[i] != s[j] {
        if j >= |a| {
          assert s[j] in b;
          if i >= |a| { assert s[i] == b[i - |a|] && s[j] == b[j - |a|]; }
        }
      }
    }
  }

  /** The names of the topics a concern ends up with. */
  lemma CompleteNames(c: Concern, names: seq<string>, required: seq<string>)
    requires names == TopicNames(Complete(c)) && required == RequiredTopics(c.kind)
    ensures forall x :: x in names <==> x in TopicNames(c.topics) || x in required
    ensures NoRepeats(names) <==> NoRepeats(TopicNames(c.topics))
  {
    var given, m := TopicNames(c.topics), Missing(required, TopicNames(c.topics));
    RequiredNames(c.kind);
    MissingNames(required, given);
    MissingAre(required, given);
    MissingUnique(required, given);
    assert names == given + TopicNames(m);
    forall x | x in required && x !in given ensures x in TopicNames(m) {
      var i :| 0 <= i < |m| && m[i].name == x;
      assert TopicNames(m)[i] == x;
    }
    forall x | x in TopicNames(m) ensures x in required && x !in given {
      var i :| 0 <= i < |m| && TopicNames(m)[i] == x;
      assert m[i] in m;
    }
    NoRepeatsAppend(given, TopicNames(m));
  }

  lemma InitNames(c: Concern, admin: string, targets: seq<StorageTarget>)
    ensures TopicNames(InitConcern(c, admin, targets).topics) == TopicNames(Complete(c))
    ensures forall i :: 0 <= i < |c.topics| ==> Complete(c)[i] == c.topics[i]
  {
  }

  predicate TopicsNamed(ts: seq<TopicSet>) { forall i :: 0 <= i < |ts| ==> IsValidName(ts[i].name) }

  lemma ByName(ts: seq<TopicSet>, names: seq<string>)
    requires names == TopicNames(ts)
    ensures TopicsNamed(ts) <==> forall x :: x in names ==> IsValidName(x)
    ensures UniqueTopics(ts) <==> NoRepeats(names)
    ensures forall r: string :: r in names <==> exists i :: 0 <= i < |ts| && ts[i].name == r
  {
    assert forall i :: 0 <= i < |ts| ==> names[i] == ts[i].name && names[i] in names;
    assert forall x :: x in names ==> exists i :: 0 <= i < |ts| && names[i] == x;
  }

  lemma NoMoreExactly(names: seq<string>, given: seq<string>, required: seq<string>)
    requires NoRepeats(names) && NoRepeats(required) && forall x :: x in names <==> x in given || x in required
    ensures |names| == |required| <==> forall x :: x in given ==> x in required
  {
    if forall x :: x in given ==> x in required {
      SameLength(names, required);
    }
    if |names| == |required| {
      Pigeonhole(names, required);
      forall x | x in given ensures x in required {
        assert x in multiset(names);
      }
    }
  }

  /** The names of a concern's topics as they are checked at the end, and as they are given. */
  lemma NamesAccepted(c: Concern, admin: string, targets: seq<StorageTarget>)
    ensures var d := InitConcern(c, admin, targets);
            d.topics != [] && (UniqueTopics(d.topics) <==> UniqueTopics(c.topics))
                && (TopicsNamed(d.topics) <==> TopicsNamed(c.topics))
  {
    var d, names, required := InitConcern(c, admin, targets), TopicNames(Complete(c)), RequiredTopics(c.kind);
    InitNames(c, admin, targets);
    CompleteNames(c, names, required);
    RequiredNames(c.kind);
    ByName(d.topics, names);
    ByName(c.topics, TopicNames(c.topics));
    assert required[0] in required && required[0] in names;
  }

  lemma SixAccepted(c: Concern, admin: string, targets: seq<StorageTarget>)
    requires UniqueTopics(c.topics)
    ensures |InitConcern(c, admin, targets).topics| == |RequiredTopics(c.kind)| <==>
              forall i :: 0 <= i < |c.topics| ==> c.topics[i].name in Required(c.kind)
  {
    var names, given, required := TopicNames(Complete(c)), TopicNames(c.topics), RequiredTopics(c.kind);
    CompleteNames(c, names, required);
    RequiredNames(c.kind);
    RequiredAre(c.kind);
    ByName(c.topics, given);
    NoMoreExactly(names, given, required);
    assert forall i :: 0 <= i < |given| ==> given[i] == c.topics[i].name && given[i] in given;
  }

  /** A concern is accepted exactly when what it gives is in order. */
  lemma ConcernAccepted(p: Platform, c: Concern, admin: string, clusters: set<string>)
    requires admin != "" && admin in clusters
    ensures ConcernOk(p, InitConcern(c, admin, p.targets), clusters) <==>
              IsValidName(p.name) && IsValidName(p.environment) && ConcernGivenOk(c, clusters)
  {
    var d := InitConcern(c, admin, p.targets);
    NamesAccepted(c, admin, p.targets);
    if UniqueTopics(c.topics) { SixAccepted(c, admin, p.targets); }
    AllTopicsAccepted(c, admin, p.targets, clusters);
  }

  lemma AllTopicsAccepted(c: Concern, admin: string, targets: seq<StorageTarget>, clusters: set<string>)
    requires admin != "" && admin in clusters
    ensures TopicsNamed(c.topics) ==>
              ((forall i :: 0 <= i < |InitConcern(c, admin, targets).topics| ==>
                  ValidTopics(InitConcern(c, admin, targets).topics[i], clusters)) <==>
               forall i :: 0 <= i < |c.topics| ==> TopicsGivenOk(c.topics[i], c.kind, clusters))
  {
    var d, required := InitConcern(c, admin, targets), RequiredTopics(c.kind);
    RequiredNames(c.kind);
    MissingAre(required, TopicNames(c.topics));
    MissingNames(required, TopicNames(c.topics));
    forall i | 0 <= i < |d.topics|
      ensures ValidTopics(d.topics[i], clusters) <==>
                Complete(c)[i].name != "" && TopicsGivenOk(Complete(c)[i], c.kind, clusters)
    {
      TopicsAccepted(Complete(c)[i], admin, c.kind, targets, clusters);
    }
    InitNames(c, admin, targets);
    forall i | |c.topics| <= i < |d.topics|
      ensures Complete(c)[i].name != "" && TopicsGivenOk(Complete(c)[i], c.kind, clusters)
    {
      var m := Missing(required, TopicNames(c.topics));
      assert Complete(c)[i] == m[i - |c.topics|] && m[i - |c.topics|] in m;
    }
    if (forall i :: 0 <= i < |d.topics| ==> ValidTopics(d.topics[i], clusters)) {
      forall i | 0 <= i < |c.topics| ensures TopicsGivenOk(c.topics[i], c.kind, clusters) {
        assert ValidTopics(d.topics[i], clusters);
      }
    }
  }

  predicate GivenOkAt(p: Platform, i: int)
    requires 0 <= i < |p.concerns|
  {
    && IsValidName(p.name) && IsValidName(p.environment)
    && ConcernGivenOk(p.concerns[i], ClusterNames(p.clusters))
  }

  predicate ConcernAcceptedAt(p: Platform, i: int)
    requires 0 <= i < |p.concerns|
  {
    ConcernOk(p, InitConcerns(p)[i], ClusterNames(p.clusters)) <==> GivenOkAt(p, i)
  }

  /** A definition is accepted exactly when what it gives is in order: names, one admin cluster
      and one primary target, known clusters, generations, single partitions, no topic twice
      and, for APECS, no topic beyond the six. */
  lemma AcceptedExactly(p: Platform, name: string, environment: string)
    ensures Accepts(p, name, environment) <==>
              && p.name == name && p.environment == environment && ClustersOk(p.clusters) && TargetsOk(p.targets)
              && UniqueConcerns(p.concerns)
              && forall i :: 0 <= i < |p.concerns| ==> GivenOkAt(p, i)
  {
    if ClustersOk(p.clusters) {
      var admin :| OneAdmin(p.clusters, admin);
      AdminFound(p.clusters, admin);
      assert admin in p.clusters && ClusterOk(admin);
      forall i | 0 <= i < |p.concerns| ensures ConcernAcceptedAt(p, i)
      {
        assert InitConcerns(p)[i] == InitConcern(p.concerns[i], admin.name, p.targets);
        ConcernAccepted(p, p.concerns[i], admin.name, ClusterNames(p.clusters));
      }
      if forall i :: 0 <= i < |p.concerns| ==> GivenOkAt(p, i) {
        forall i | 0 <= i < |p.concerns| ensures ConcernOk(p, InitConcerns(p)[i], ClusterNames(p.clusters)) {
          assert ConcernAcceptedAt(p, i) && GivenOkAt(p, i);
        }
      } else {
        var i :| 0 <= i < |p.concerns| && !GivenOkAt(p, i);
        assert ConcernAcceptedAt(p, i);
        assert !ConcernOk(p, InitConcerns(p)[i], ClusterNames(p.clusters));
      }
    }
  }
}
