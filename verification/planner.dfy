/** The fan-out planner of the aggregator's streaming handler: one probe task
    per (section, region) entry of the registry, sections visited gcp, aws,
    azure, alicloud, entries in each section's iteration order. */
module Planner {
  import opened Outcomes
  import opened Registry

  /** One probe to run: the provider whose request scheme applies, the
      region key and the probe endpoint URL. */
  datatype Task = Task(provider: Provider, region: string, endpoint: string)

  /** Looking a section up in the registry raised `KeyError`. */
  datatype PlanError = MissingNamespace(namespace: string)

  /** Every provider has a section in the registry. */
  predicate HasAllSections(urls: Urls)
  {
    forall p :: Namespace(p) in urls
  }

  function Section(urls: Urls, p: Provider): Dict
    requires Namespace(p) in urls
  {
    urls[Namespace(p)]
  }

  /** Task `t` stands for an entry of its provider's section. */
  predicate InRegistry(urls: Urls, t: Task)
  {
    Namespace(t.provider) in urls
    && t.region in AsMap(Section(urls, t.provider))
    && AsMap(Section(urls, t.provider))[t.region] == t.endpoint
  }

  /** The tasks of one section, in the section's iteration order. */
  function TasksFor(p: Provider, d: Dict): (ts: seq<Task>)
    ensures |ts| == |d|
    ensures forall i :: 0 <= i < |ts| ==> ts[i].provider == p && ts[i].region == d[i].0 && ts[i].endpoint == d[i].1
  {
    if d == [] then [] else [Task(p, d[0].0, d[0].1)] + TasksFor(p, d[1..])
  }

  /** With every section present the plan is the four sections' tasks,
      concatenated in visit order. */
  function PlannedTasks(urls: Urls): seq<Task>
    requires HasAllSections(urls)
  {
    TasksFor(Gcp, Section(urls, Gcp)) + TasksFor(Aws, Section(urls, Aws))
    + TasksFor(Azure, Section(urls, Azure)) + TasksFor(AliCloud, Section(urls, AliCloud))
  }

  lemma TasksForInRegistry(urls: Urls, p: Provider)
    requires Namespace(p) in urls
    ensures forall t :: t in TasksFor(p, Section(urls, p)) ==> InRegistry(urls, t)
  {
    var d := Section(urls, p);
    var ts := TasksFor(p, d);
    forall t | t in ts
      ensures InRegistry(urls, t)
    {
      var i :| 0 <= i < |ts| && ts[i] == t;
      assert d[i].0 in AsMap(d);
    }
  }

  lemma PlannedTasksInRegistry(urls: Urls)
    requires HasAllSections(urls)
    ensures forall t :: t in PlannedTasks(urls) ==> InRegistry(urls, t)
  {
    TasksForInRegistry(urls, Gcp);
    TasksForInRegistry(urls, Aws);
    TasksForInRegistry(urls, Azure);
    TasksForInRegistry(urls, AliCloud);
  }

  /** The task list the streaming handler builds from the registry: the
      tasks of the gcp section, then aws, azure and alicloud. Looking up a
      missing section raises, so planning fails naming the first missing
      section in visit order. Every task it builds stands for an entry of its
      provider's section. */
  function Plan(urls: Urls): (r: Result<seq<Task>, PlanError>)
    ensures r.Err? <==> !HasAllSections(urls)
    ensures r.Err? ==> exists p :: r.error == MissingNamespace(Namespace(p)) && Namespace(p) !in urls
                                   && forall q :: Rank(q) < Rank(p) ==> Namespace(q) in urls
    ensures r.Ok? ==> forall t :: t in r.value ==> InRegistry(urls, t)
  {
    if Namespace(Gcp) !in urls then Err(MissingNamespace(Namespace(Gcp)))
    else if Namespace(Aws) !in urls then Err(MissingNamespace(Namespace(Aws)))
    else if Namespace(Azure) !in urls then Err(MissingNamespace(Namespace(Azure)))
    else if Namespace(AliCloud) !in urls then Err(MissingNamespace(Namespace(AliCloud)))
    else
      PlannedTasksInRegistry(urls);
      Ok(PlannedTasks(urls))
  }

  /** The tasks of `ts` that belong to provider `p`, in order. */
  function OfProvider(ts: seq<Task>, p: Provider): seq<Task>
  {
    if ts == [] then []
    else (if ts[0].provider == p then [ts[0]] else []) + OfProvider(ts[1..], p)
  }

  /** Number of tasks of `ts` for provider `p` and region `region`. */
  function CountRegion(ts: seq<Task>, p: Provider, region: string): nat
  {
    if ts == [] then 0
    else (if ts[0].provider == p && ts[0].region == region then 1 else 0) + CountRegion(ts[1..], p, region)
  }

  /** Tasks appear grouped by provider, in visit order. */
  predicate ProviderSorted(ts: seq<Task>)
  {
    forall i, j :: 0 <= i < j < |ts| ==> Rank(ts[i].provider) <= Rank(ts[j].provider)
  }

  lemma {:induction false} OfProviderAppend(a: seq<Task>, b: seq<Task>, p: Provider)
    ensures OfProvider(a + b, p) == OfProvider(a, p) + OfProvider(b, p)
  {
    if a == [] {
      assert a + b == b;
    } else {
      assert (a + b)[0] == a[0];
      assert (a + b)[1..] == a[1..] + b;
      OfProviderAppend(a[1..], b, p);
    }
  }

  lemma {:induction false} OfProviderTasksFor(q: Provider, d: Dict, p: Provider)
    ensures OfProvider(TasksFor(q, d), p) == if q == p then TasksFor(q, d) else []
  {
    if d != [] {
      var rest: Dict := d[1..];
      OfProviderTasksFor(q, rest, p);
      assert TasksFor(q, d)[1..] == TasksFor(q, rest);
    }
  }

  lemma {:induction false} CountRegionAppend(a: seq<Task>, b: seq<Task>, p: Provider, region: string)
    ensures CountRegion(a + b, p, region) == CountRegion(a, p, region) + CountRegion(b, p, region)
  {
    if a == [] {
      assert a + b == b;
    } else {
      assert (a + b)[0] == a[0];
      assert (a + b)[1..] == a[1..] + b;
      CountRegionAppend(a[1..], b, p, region);
    }
  }

  lemma {:induction false} CountRegionTasksFor(q: Provider, d: Dict, p: Provider, region: string)
    ensures CountRegion(TasksFor(q, d), p, region) == if q == p then KeyCount(d, region) else 0
  {
    if d != [] {
      var rest: Dict := d[1..];
      CountRegionTasksFor(q, rest, p, region);
      assert TasksFor(q, d)[1..] == TasksFor(q, rest);
    }
  }

  /** Every task of `ts` has a provider ranked between `lo` and `hi`. */
  predicate RanksBetween(ts: seq<Task>, lo: nat, hi: nat)
  {
    forall i :: 0 <= i < |ts| ==> lo <= Rank(ts[i].provider) <= hi
  }

  lemma AppendSorted(a: seq<Task>, b: seq<Task>, lo: nat, m: nat, hi: nat)
    requires ProviderSorted(a) && ProviderSorted(b)
    requires lo <= m <= hi
    requires RanksBetween(a, lo, m) && RanksBetween(b, m, hi)
    ensures ProviderSorted(a + b) && RanksBetween(a + b, lo, hi)
  {
    forall i | 0 <= i < |a + b|
      ensures lo <= Rank((a + b)[i].provider) <= hi
    {
      if i < |a| {
        assert (a + b)[i] == a[i];
      } else {
        assert (a + b)[i] == b[i - |a|];
      }
    }
    forall i, j | 0 <= i < j < |a + b|
      ensures Rank((a + b)[i].provider) <= Rank((a + b)[j].provider)
    {
      if j < |a| {
      } else if i >= |a| {
        assert (a + b)[i] == b[i - |a|] && (a + b)[j] == b[j - |a|];
      } else {
        assert (a + b)[j] == b[j - |a|];
      }
    }
  }

  lemma TasksForSorted(p: Provider, d: Dict)
    ensures ProviderSorted(TasksFor(p, d)) && RanksBetween(TasksFor(p, d), Rank(p), Rank(p))
  {
  }

  /** Exactly one task per registry entry: the plan has as many tasks as the
      four sections have entries together. */
  lemma PlanCount(urls: Urls)
    requires HasAllSections(urls)
    ensures Plan(urls).Ok?
    ensures |Plan(urls).value| == |AsMap(Section(urls, Gcp))| + |AsMap(Section(urls, Aws))|
                                 + |AsMap(Section(urls, Azure))| + |AsMap(Section(urls, AliCloud))|
  {
  }

  /** Tasks come grouped by provider: gcp, then aws, azure, alicloud. */
  lemma PlanOrder(urls: Urls)
    requires HasAllSections(urls)
    ensures Plan(urls).Ok?
    ensures ProviderSorted(Plan(urls).value)
  {
    var g := TasksFor(Gcp, Section(urls, Gcp));
    var a := TasksFor(Aws, Section(urls, Aws));
    var z := TasksFor(Azure, Section(urls, Azure));
    var l := TasksFor(AliCloud, Section(urls, AliCloud));
    TasksForSorted(Gcp, Section(urls, Gcp));
    TasksForSorted(Aws, Section(urls, Aws));
    TasksForSorted(Azure, Section(urls, Azure));
    TasksForSorted(AliCloud, Section(urls, AliCloud));
    AppendSorted(g, a, 0, 0, 1);
    AppendSorted(g + a, z, 0, 1, 2);
    AppendSorted(g + a + z, l, 0, 2, 3);
  }

  /** The tasks of each provider follow its section's iteration order, one
      per entry. */
  lemma PlanSectionOrder(urls: Urls, p: Provider)
    requires HasAllSections(urls)
    ensures Plan(urls).Ok?
    ensures |OfProvider(Plan(urls).value, p)| == |Section(urls, p)|
    ensures forall i :: 0 <= i < |OfProvider(Plan(urls).value, p)| ==>
              OfProvider(Plan(urls).value, p)[i] == Task(p, Section(urls, p)[i].0, Section(urls, p)[i].1)
  {
    PlannedOfProvider(urls, p);
  }

  lemma PlannedOfProvider(urls: Urls, p: Provider)
    requires HasAllSections(urls)
    ensures OfProvider(PlannedTasks(urls), p) == TasksFor(p, Section(urls, p))
  {
    var g := TasksFor(Gcp, Section(urls, Gcp));
    var a := TasksFor(Aws, Section(urls, Aws));
    var z := TasksFor(Azure, Section(urls, Azure));
    var l := TasksFor(AliCloud, Section(urls, AliCloud));
    OfProviderAppend(g + a + z, l, p);
    OfProviderAppend(g + a, z, p);
    OfProviderAppend(g, a, p);
    OfProviderTasksFor(Gcp, Section(urls, Gcp), p);
    OfProviderTasksFor(Aws, Section(urls, Aws), p);
    OfProviderTasksFor(Azure, Section(urls, Azure), p);
    OfProviderTasksFor(AliCloud, Section(urls, AliCloud), p);
    match p
    case Gcp => assert OfProvider(g + a + z + l, p) == g + [] + [] + [];
    case Aws => assert OfProvider(g + a + z + l, p) == [] + a + [] + [];
    case Azure => assert OfProvider(g + a + z + l, p) == [] + [] + z + [];
    case AliCloud => assert OfProvider(g + a + z + l, p) == [] + [] + [] + l;
  }

  /** A (provider, region) pair has one task if the region is a key of the
      provider's section and none otherwise. */
  lemma PlanOnePerEntry(urls: Urls, p: Provider, region: string)
    requires HasAllSections(urls)
    ensures Plan(urls).Ok?
    ensures CountRegion(Plan(urls).value, p, region) == if region in AsMap(Section(urls, p)) then 1 else 0
  {
    var g := TasksFor(Gcp, Section(urls, Gcp));
    var a := TasksFor(Aws, Section(urls, Aws));
    var z := TasksFor(Azure, Section(urls, Azure));
    var l := TasksFor(AliCloud, Section(urls, AliCloud));
    CountRegionAppend(g + a + z, l, p, region);
    CountRegionAppend(g + a, z, p, region);
    CountRegionAppend(g, a, p, region);
    CountRegionTasksFor(Gcp, Section(urls, Gcp), p, region);
    CountRegionTasksFor(Aws, Section(urls, Aws), p, region);
    CountRegionTasksFor(Azure, Section(urls, Azure), p, region);
    CountRegionTasksFor(AliCloud, Section(urls, AliCloud), p, region);
    KeyCountIsMembership(Section(urls, p), region);
  }

  lemma {:induction false} CountRegionTwo(ts: seq<Task>, i: nat, j: nat)
    requires i < j < |ts|
    requires ts[i].provider == ts[j].provider && ts[i].region == ts[j].region
    ensures CountRegion(ts, ts[i].provider, ts[i].region) >= 2
  {
    var p, region := ts[i].provider, ts[i].region;
    if i == 0 {
      CountRegionPositive(ts[1..], j - 1, p, region);
    } else {
      CountRegionTwo(ts[1..], i - 1, j - 1);
    }
  }

  lemma {:induction false} CountRegionPositive(ts: seq<Task>, k: nat, p: Provider, region: string)
    requires k < |ts| && ts[k].provider == p && ts[k].region == region
    ensures CountRegion(ts, p, region) >= 1
  {
    if k > 0 {
      CountRegionPositive(ts[1..], k - 1, p, region);
    }
  }

  /** No two tasks of a plan share both provider and region. */
  lemma PlanEntriesDistinct(urls: Urls, i: nat, j: nat)
    requires Plan(urls).Ok?
    requires i < j < |Plan(urls).value|
    ensures var ts := Plan(urls).value;
            ts[i].provider != ts[j].provider || ts[i].region != ts[j].region
  {
    var ts := Plan(urls).value;
    if ts[i].provider == ts[j].provider && ts[i].region == ts[j].region {
      CountRegionTwo(ts, i, j);
      PlanOnePerEntry(urls, ts[i].provider, ts[i].region);
    }
  }
}
