/** Planning how an organisation's plugin flows are brought in line with its plugins
    (src/lib/flows/reconcile-plan.ts). */
module ReconcilePlan {
  import opened Wrappers

  datatype Template = Template(id: string, name: string, content: string)
  datatype Plugin = Plugin(id: string, displayName: string, enabled: bool, templates: seq<Template>)
  datatype Group = Group(id: string, name: string, pluginId: Option<string>, disabled: bool)
  datatype Ungrouped = Ungrouped(id: string, pluginId: Option<string>)

  datatype Create = Create(tempKey: string, name: string, pluginId: string, disabled: bool)
  datatype Update = Update(id: string, name: string, disabled: bool)
  datatype Seed = Seed(pluginId: string, template: Template, groupRef: string)
  datatype Reassign = Reassign(flowId: string, groupRef: string)

  datatype Plan = Plan(creates: seq<Create>, updates: seq<Update>, seeds: seq<Seed>,
                       reassigns: seq<Reassign>, releases: seq<string>, keysToAdd: seq<string>)

  function TempKey(pluginId: string): string { "new:" + pluginId }

  function Key(pluginId: string, templateId: string): string { pluginId + ":" + templateId }

  function SeedKey(s: Seed): string { Key(s.pluginId, s.template.id) }

  function KeysOf(seeds: seq<Seed>): (keys: seq<string>)
    ensures |keys| == |seeds|
    ensures forall i :: 0 <= i < |seeds| ==> keys[i] == SeedKey(seeds[i])
  {
    seq(|seeds|, i requires 0 <= i < |seeds| => SeedKey(seeds[i]))
  }

  // ---- What is planned ----

  /** The first group of a plugin. */
  function Find(groups: seq<Group>, pluginId: string): (i: Option<nat>)
    ensures i.Some? ==> i.value < |groups| && groups[i.value].pluginId == Some(pluginId)
    ensures i.Some? ==> forall j :: 0 <= j < i.value ==> groups[j].pluginId != Some(pluginId)
    ensures i.None? ==> forall j :: 0 <= j < |groups| ==> groups[j].pluginId != Some(pluginId)
  {
    if groups == [] then None
    else if groups[0].pluginId == Some(pluginId) then Some(0)
    else
      match Find(groups[1..], pluginId)
      case None => None
      case Some(j) => Some(j + 1)
  }

  function Ref(groups: seq<Group>, p: Plugin): string {
    match Find(groups, p.id)
    case Some(i) => groups[i].id
    case None => TempKey(p.id)
  }

  predicate OutOfDate(g: Group, p: Plugin) { g.disabled != !p.enabled || g.name != p.displayName }

  function Creates(groups: seq<Group>, plugins: seq<Plugin>): seq<Create> {
    if plugins == [] then []
    else
      var p := plugins[|plugins| - 1];
      Creates(groups, plugins[..|plugins| - 1]) +
      if Find(groups, p.id).Some? then [] else [Create(TempKey(p.id), p.displayName, p.id, !p.enabled)]
  }

  function Updates(groups: seq<Group>, plugins: seq<Plugin>): seq<Update> {
    if plugins == [] then []
    else
      var p := plugins[|plugins| - 1];
      var existing := Find(groups, p.id);
      Updates(groups, plugins[..|plugins| - 1]) +
      if existing.Some? && OutOfDate(groups[existing.value], p) then
        [Update(groups[existing.value].id, p.displayName, !p.enabled)]
      else []
  }

  function ReassignsOf(flows: seq<Ungrouped>, pluginId: string, groupRef: string): seq<Reassign> {
    if flows == [] then []
    else
      var f := flows[|flows| - 1];
      ReassignsOf(flows[..|flows| - 1], pluginId, groupRef) +
      if f.pluginId == Some(pluginId) then [Reassign(f.id, groupRef)] else []
  }

  function Reassigns(groups: seq<Group>, flows: seq<Ungrouped>, plugins: seq<Plugin>): seq<Reassign> {
    if plugins == [] then []
    else
      var p := plugins[|plugins| - 1];
      Reassigns(groups, flows, plugins[..|plugins| - 1]) + ReassignsOf(flows, p.id, Ref(groups, p))
  }

  predicate Known(key: string, installed: seq<string>, seeds: seq<Seed>) {
    key in installed || key in KeysOf(seeds)
  }

  function SeedOnce(before: seq<Seed>, s: Seed, installed: seq<string>): seq<Seed> {
    if Known(SeedKey(s), installed, before) then before else before + [s]
  }

  /** The seeds after the first n templates of a plugin whose flows go where groupRef says. */
  function SeedTemplates(before: seq<Seed>, p: Plugin, groupRef: string, n: nat, installed: seq<string>): seq<Seed>
    requires n <= |p.templates|
  {
    if n == 0 then before
    else
      SeedOnce(SeedTemplates(before, p, groupRef, n - 1, installed), Seed(p.id, p.templates[n - 1], groupRef),
               installed)
  }

  function Seeds(groups: seq<Group>, plugins: seq<Plugin>, installed: seq<string>): seq<Seed> {
    if plugins == [] then []
    else
      var p := plugins[|plugins| - 1];
      var before := Seeds(groups, plugins[..|plugins| - 1], installed);
      if p.enabled then SeedTemplates(before, p, Ref(groups, p), |p.templates|, installed) else before
  }

  /** A group whose plugin is gone. An empty plugin id does not count as one. */
  predicate Orphaned(g: Group, plugins: seq<Plugin>) {
    g.pluginId.Some? && g.pluginId.value != "" && forall i :: 0 <= i < |plugins| ==> plugins[i].id != g.pluginId.value
  }

  function Releases(groups: seq<Group>, plugins: seq<Plugin>): seq<string> {
    if groups == [] then []
    else
      var g := groups[|groups| - 1];
      Releases(groups[..|groups| - 1], plugins) + if Orphaned(g, plugins) then [g.id] else []
  }

  function PlanFor(groups: seq<Group>, flows: seq<Ungrouped>, installed: seq<string>, plugins: seq<Plugin>): Plan {
    var seeds := Seeds(groups, plugins, installed);
    Plan(Creates(groups, plugins), Updates(groups, plugins), seeds, Reassigns(groups, flows, plugins),
         Releases(groups, plugins), KeysOf(seeds))
  }

  // ---- The planner's loops ----

  lemma {:induction false} FindIs(groups: seq<Group>, pluginId: string, i: nat)
    requires i < |groups| && groups[i].pluginId == Some(pluginId)
    requires forall j :: 0 <= j < i ==> groups[j].pluginId != Some(pluginId)
    ensures Find(groups, pluginId) == Some(i)
  {
    assert Find(groups, pluginId).Some?;
  }

  method FindGroup(groups: seq<Group>, pluginId: string) returns (existing: Option<nat>)
    ensures existing == Find(groups, pluginId)
  {
    for i := 0 to |groups|
      invariant forall j :: 0 <= j < i ==> groups[j].pluginId != Some(pluginId)
    {
      if groups[i].pluginId == Some(pluginId) {
        return Some(i);
      }
    }
    return None;
  }

  method Sweep(flows: seq<Ungrouped>, p: Plugin, groupRef: string, before: seq<Reassign>)
    returns (reassigns: seq<Reassign>)
    ensures reassigns == before + ReassignsOf(flows, p.id, groupRef)
  {
    reassigns := before;
    for i := 0 to |flows|
      invariant reassigns == before + ReassignsOf(flows[..i], p.id, groupRef)
    {
      assert flows[..i + 1][..i] == flows[..i];
      if flows[i].pluginId == Some(p.id) {
        reassigns := reassigns + [Reassign(flows[i].id, groupRef)];
      }
    }
    assert flows[..|flows|] == flows;
  }

  /** `seen` is the running set of keys: those installed and those of the seeds so far. */
  ghost predicate Tracks(seen: set<string>, installed: seq<string>, seeds: seq<Seed>) {
    forall k :: k in seen <==> Known(k, installed, seeds)
  }

  lemma TrackOneMore(seen: set<string>, installed: seq<string>, seeds: seq<Seed>, s: Seed)
    requires Tracks(seen, installed, seeds)
    ensures KeysOf(seeds + [s]) == KeysOf(seeds) + [SeedKey(s)]
    ensures Tracks(seen + {SeedKey(s)}, installed, seeds + [s])
  {
    assert KeysOf(seeds + [s]) == KeysOf(seeds) + [SeedKey(s)];
  }

  lemma TrackNone(installed: seq<string>)
    ensures KeysOf([]) == []
    ensures Tracks((set k | k in installed), installed, [])
  {
  }

  method SeedUnseen(p: Plugin, groupRef: string, installed: seq<string>,
                    seen: set<string>, before: seq<Seed>, keys: seq<string>)
    returns (seen': set<string>, seeds: seq<Seed>, keys': seq<string>)
    requires keys == KeysOf(before) && Tracks(seen, installed, before)
    ensures seeds == SeedTemplates(before, p, groupRef, |p.templates|, installed)
    ensures keys' == KeysOf(seeds) && Tracks(seen', installed, seeds)
  {
    seen', seeds, keys' := seen, before, keys;
    for i := 0 to |p.templates|
      invariant seeds == SeedTemplates(before, p, groupRef, i, installed)
      invariant keys' == KeysOf(seeds) && Tracks(seen', installed, seeds)
    {
      hide KeysOf, Known;
      var s := Seed(p.id, p.templates[i], groupRef);
      TrackOneMore(seen', installed, seeds, s);
      if SeedKey(s) !in seen' {
        seen' := seen' + {SeedKey(s)};
        keys' := keys' + [SeedKey(s)];
        seeds := seeds + [s];
      }
    }
  }

  /** One pass of the loop over plugins, but for the seeds: the group and the sweep. */
  method PlanGroup(groups: seq<Group>, flows: seq<Ungrouped>, p: Plugin, before: Plan)
    returns (plan: Plan, groupRef: string)
    ensures groupRef == Ref(groups, p)
    ensures plan == before.(
      creates := before.creates +
        (if Find(groups, p.id).Some? then [] else [Create(TempKey(p.id), p.displayName, p.id, !p.enabled)]),
      updates := before.updates +
        (var e := Find(groups, p.id);
         if e.Some? && OutOfDate(groups[e.value], p) then
           [Update(groups[e.value].id, p.displayName, !p.enabled)]
         else []),
      reassigns := before.reassigns + ReassignsOf(flows, p.id, Ref(groups, p)))
  {
    plan := before;
    var existing := FindGroup(groups, p.id);
    if existing.Some? {
      var g := groups[existing.value];
      groupRef := g.id;
      if OutOfDate(g, p) {
        plan := plan.(updates := plan.updates + [Update(g.id, p.displayName, !p.enabled)]);
      }
    } else {
      groupRef := TempKey(p.id);
      plan := plan.(creates := plan.creates + [Create(groupRef, p.displayName, p.id, !p.enabled)]);
    }
    var reassigns := Sweep(flows, p, groupRef, plan.reassigns);
    plan := plan.(reassigns := reassigns);
  }

  method PlanReconcile(groups: seq<Group>, flows: seq<Ungrouped>, installedKeys: seq<string>, plugins: seq<Plugin>)
    returns (plan: Plan)
    ensures plan == PlanFor(groups, flows, installedKeys, plugins)
  {
    plan := Plan([], [], [], [], [], []);
    var installed := set k | k in installedKeys;
    TrackNone(installedKeys);
    for i := 0 to |plugins|
      invariant plan.creates == Creates(groups, plugins[..i])
      invariant plan.updates == Updates(groups, plugins[..i])
      invariant plan.reassigns == Reassigns(groups, flows, plugins[..i])
      invariant plan.seeds == Seeds(groups, plugins[..i], installedKeys)
      invariant plan.keysToAdd == KeysOf(plan.seeds) && Tracks(installed, installedKeys, plan.seeds)
      invariant plan.releases == []
    {
      hide Find, SeedTemplates, Tracks, KeysOf, ReassignsOf, Ref;
      var p := plugins[i];
      assert plugins[..i + 1][..i] == plugins[..i];
      var groupRef;
      plan, groupRef := PlanGroup(groups, flows, p, plan);
      if p.enabled {
        var seeds, keys;
        installed, seeds, keys := SeedUnseen(p, groupRef, installedKeys, installed, plan.seeds, plan.keysToAdd);
        plan := plan.(seeds := seeds, keysToAdd := keys);
      }
    }
    assert plugins[..|plugins|] == plugins;
    var releases := FindReleases(groups, plugins);
    plan := plan.(releases := releases);
  }

  method FindReleases(groups: seq<Group>, plugins: seq<Plugin>) returns (releases: seq<string>)
    ensures releases == Releases(groups, plugins)
  {
    releases := [];
    var pluginIds := set p | p in plugins :: p.id;
    for i := 0 to |groups|
      invariant releases == Releases(groups[..i], plugins)
    {
      assert groups[..i + 1][..i] == groups[..i];
      var g := groups[i];
      if g.pluginId.Some? && g.pluginId.value != "" && g.pluginId.value !in pluginIds {
        assert forall j :: 0 <= j < |plugins| ==> plugins[j].id in pluginIds;
        releases := releases + [g.id];
      }
    }
    assert groups[..|groups|] == groups;
  }
}
