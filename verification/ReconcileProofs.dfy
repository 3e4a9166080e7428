/** What a reconcile plan holds: its creations, updates, releases, moves and seeds. */
module ReconcileProofs {
  import opened Wrappers
  import opened ReconcilePlan
  import opened ReconcileStore

  predicate IsTemp(id: string) { |id| >= 4 && id[..4] == "new:" }

  ghost predicate DistinctGroupIds(groups: seq<Group>) {
    forall i, j :: 0 <= i < j < |groups| ==> groups[i].id != groups[j].id
  }

  ghost predicate RealIds(groups: seq<Group>) { forall i :: 0 <= i < |groups| ==> !IsTemp(groups[i].id) }

  ghost predicate DistinctFlowIds(flows: seq<Flow>) {
    forall i, j :: 0 <= i < j < |flows| ==> flows[i].id != flows[j].id
  }

  ghost predicate OrgOk(o: Org) {
    DistinctGroupIds(o.groups) && RealIds(o.groups) && DistinctFlowIds(o.flows)
  }

  /** The random ids are new, distinct and never look like a temporary key. */
  ghost predicate FreshIds(o: Org, r: Request) {
    && (forall i, j :: 0 <= i < j < |r.groupIds| ==> r.groupIds[i] != r.groupIds[j])
    && (forall i, j :: 0 <= i < j < |r.flowIds| ==> r.flowIds[i] != r.flowIds[j])
    && (forall i, j :: 0 <= i < |r.groupIds| && 0 <= j < |o.groups| ==> r.groupIds[i] != o.groups[j].id)
    && (forall i, j :: 0 <= i < |r.flowIds| && 0 <= j < |o.flows| ==> r.flowIds[i] != o.flows[j].id)
    && (forall i :: 0 <= i < |r.groupIds| ==> !IsTemp(r.groupIds[i]))
  }

  /** A plugin listed twice has the same name and state both times. */
  ghost predicate Agree(plugins: seq<Plugin>) {
    forall i, j :: 0 <= i < |plugins| && 0 <= j < |plugins| && plugins[i].id == plugins[j].id ==>
      plugins[i].displayName == plugins[j].displayName && plugins[i].enabled == plugins[j].enabled
  }

  // ---- What the plan holds ----

  predicate CreateFrom(groups: seq<Group>, p: Plugin, c: Create) {
    Find(groups, p.id).None? && c == Create(TempKey(p.id), p.displayName, p.id, !p.enabled)
  }

  lemma {:induction false} CreatesAre(groups: seq<Group>, plugins: seq<Plugin>, c: Create)
    ensures c in Creates(groups, plugins) <==>
      exists k :: 0 <= k < |plugins| && CreateFrom(groups, plugins[k], c)
  {
    hide Find;
    if plugins != [] {
      CreatesAre(groups, plugins[..|plugins| - 1], c);
    }
  }

  predicate UpdateFrom(groups: seq<Group>, p: Plugin, u: Update) {
    var e := Find(groups, p.id);
    e.Some? && u == Update(groups[e.value].id, p.displayName, !p.enabled)
  }

  lemma {:induction false} UpdatesAre(groups: seq<Group>, plugins: seq<Plugin>, u: Update)
    requires u in Updates(groups, plugins)
    ensures exists k :: 0 <= k < |plugins| && UpdateFrom(groups, plugins[k], u)
  {
    hide Find;
    var front := plugins[..|plugins| - 1];
    if u in Updates(groups, front) {
      UpdatesAre(groups, front, u);
      var k :| 0 <= k < |front| && UpdateFrom(groups, front[k], u);
      assert plugins[k] == front[k];
    } else {
      assert UpdateFrom(groups, plugins[|plugins| - 1], u);
    }
  }

  lemma {:induction false} ReleasesAre(groups: seq<Group>, plugins: seq<Plugin>, id: string)
    ensures id in Releases(groups, plugins) <==>
      exists i :: 0 <= i < |groups| && groups[i].id == id && Orphaned(groups[i], plugins)
  {
    hide Orphaned;
    if groups != [] {
      ReleasesAre(groups[..|groups| - 1], plugins, id);
    }
  }

  lemma {:induction false} ReassignsOfAre(flows: seq<Ungrouped>, pluginId: string, groupRef: string, r: Reassign)
    ensures r in ReassignsOf(flows, pluginId, groupRef) <==>
      r.groupRef == groupRef && Ungrouped(r.flowId, Some(pluginId)) in flows
  {
    if flows != [] {
      assert flows == flows[..|flows| - 1] + [flows[|flows| - 1]];
      ReassignsOfAre(flows[..|flows| - 1], pluginId, groupRef, r);
    }
  }

  lemma {:induction false} ReassignsAre(groups: seq<Group>, flows: seq<Ungrouped>, plugins: seq<Plugin>, r: Reassign)
    ensures r in Reassigns(groups, flows, plugins) <==>
      exists k :: 0 <= k < |plugins| && r.groupRef == Ref(groups, plugins[k]) &&
        Ungrouped(r.flowId, Some(plugins[k].id)) in flows
  {
    hide Ref, ReassignsOf;
    if plugins != [] {
      var p := plugins[|plugins| - 1];
      ReassignsOfAre(flows, p.id, Ref(groups, p), r);
      ReassignsAre(groups, flows, plugins[..|plugins| - 1], r);
    }
  }

  lemma {:induction false} UngroupedAre(flows: seq<Flow>, u: Ungrouped)
    ensures u in UngroupedFlows(flows) <==>
      exists i :: 0 <= i < |flows| && flows[i].groupId.None? && u == Ungrouped(flows[i].id, Owner(flows[i]))
  {
    hide Owner;
    if flows != [] {
      UngroupedAre(flows[..|flows| - 1], u);
    }
  }

  // ---- Seeds ----

  lemma KeysOfAppend(seeds: seq<Seed>, s: Seed)
    ensures KeysOf(seeds + [s]) == KeysOf(seeds) + [SeedKey(s)]
  {
  }

  /** Distinct keys, none installed, each of a listed plugin's template into that plugin's group. */
  ghost predicate GoodSeeds(groups: seq<Group>, plugins: seq<Plugin>, installed: seq<string>, seeds: seq<Seed>) {
    && (forall i, j :: 0 <= i < j < |seeds| ==> SeedKey(seeds[i]) != SeedKey(seeds[j]))
    && (forall i :: 0 <= i < |seeds| ==> SeedKey(seeds[i]) !in installed && SeedFrom(groups, plugins, seeds[i]))
  }

  ghost predicate SeedFrom(groups: seq<Group>, plugins: seq<Plugin>, s: Seed) {
    exists k :: 0 <= k < |plugins| && plugins[k].enabled && s.pluginId == plugins[k].id &&
      s.template in plugins[k].templates && s.groupRef == Ref(groups, plugins[k])
  }

  lemma SeedOnceGood(groups: seq<Group>, plugins: seq<Plugin>, installed: seq<string>, seeds: seq<Seed>, s: Seed)
    requires GoodSeeds(groups, plugins, installed, seeds) && SeedFrom(groups, plugins, s)
    ensures GoodSeeds(groups, plugins, installed, SeedOnce(seeds, s, installed))
    ensures Known(SeedKey(s), installed, SeedOnce(seeds, s, installed))
    ensures forall k: string :: Known(k, installed, seeds) ==> Known(k, installed, SeedOnce(seeds, s, installed))
  {
    hide SeedFrom, SeedKey;
    KeysOfAppend(seeds, s);
    forall i | 0 <= i < |seeds| ensures KeysOf(seeds)[i] in KeysOf(seeds) {
    }
  }

  lemma {:induction false} SeedTemplatesGood(groups: seq<Group>, plugins: seq<Plugin>, installed: seq<string>,
                                             before: seq<Seed>, k: nat, n: nat)
    requires GoodSeeds(groups, plugins, installed, before)
    requires k < |plugins| && plugins[k].enabled && n <= |plugins[k].templates|
    ensures var p := plugins[k]; var after := SeedTemplates(before, p, Ref(groups, p), n, installed);
      && GoodSeeds(groups, plugins, installed, after)
      && (forall j :: 0 <= j < n ==> Known(Key(p.id, p.templates[j].id), installed, after))
      && (forall key: string :: Known(key, installed, before) ==> Known(key, installed, after))
  {
    hide GoodSeeds, SeedOnce, Known, Ref, Key;
    if n > 0 {
      var p := plugins[k];
      SeedTemplatesGood(groups, plugins, installed, before, k, n - 1);
      var s := Seed(p.id, p.templates[n - 1], Ref(groups, p));
      var mid := SeedTemplates(before, p, Ref(groups, p), n - 1, installed);
      assert SeedFrom(groups, plugins, s);
      SeedOnceGood(groups, plugins, installed, mid, s);
    }
  }

  lemma GoodSeedsOfMore(groups: seq<Group>, plugins: seq<Plugin>, p: Plugin, installed: seq<string>, seeds: seq<Seed>)
    requires GoodSeeds(groups, plugins, installed, seeds)
    ensures GoodSeeds(groups, plugins + [p], installed, seeds)
  {
    forall i | 0 <= i < |seeds| ensures SeedFrom(groups, plugins + [p], seeds[i]) {
      assert SeedFrom(groups, plugins, seeds[i]);
      var k :| 0 <= k < |plugins| && plugins[k].enabled && seeds[i].pluginId == plugins[k].id &&
        seeds[i].template in plugins[k].templates && seeds[i].groupRef == Ref(groups, plugins[k]);
      assert (plugins + [p])[k] == plugins[k];
    }
  }

  /** Every template of an enabled plugin is installed or seeded, and no seed repeats a key. */
  lemma {:induction false} SeedsGood(groups: seq<Group>, plugins: seq<Plugin>, installed: seq<string>)
    ensures var seeds := Seeds(groups, plugins, installed);
      && GoodSeeds(groups, plugins, installed, seeds)
      && forall k, j :: 0 <= k < |plugins| && plugins[k].enabled && 0 <= j < |plugins[k].templates| ==>
           Known(Key(plugins[k].id, plugins[k].templates[j].id), installed, seeds)
  {
    hide GoodSeeds, SeedTemplates, Known, Ref, Key;
    if plugins == [] {
      assert GoodSeeds(groups, [], installed, []) by { NoSeedsGood(groups, installed); }
    } else {
      var n := |plugins| - 1;
      var before := Seeds(groups, plugins[..n], installed);
      SeedsGood(groups, plugins[..n], installed);
      GoodSeedsOfMore(groups, plugins[..n], plugins[n], installed, before);
      assert plugins[..n] + [plugins[n]] == plugins;
      if plugins[n].enabled {
        SeedTemplatesGood(groups, plugins, installed, before, n, |plugins[n].templates|);
      }
    }
  }

  lemma NoSeedsGood(groups: seq<Group>, installed: seq<string>)
    ensures GoodSeeds(groups, [], installed, [])
  {
  }
}
