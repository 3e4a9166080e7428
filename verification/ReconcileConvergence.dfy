/** The groups a reconcile leaves: where each listed plugin's group is, and that it is up to date. */
module ReconcileConvergence {
  import opened Wrappers
  import opened ReconcilePlan
  import opened ReconcileStore
  import opened ReconcileProofs

  // ---- The groups afterwards ----

  lemma {:induction false} UntouchedByUpdates(g: Group, updates: seq<Update>)
    requires forall u :: u in updates ==> u.id != g.id
    ensures AfterUpdates(g, updates) == g
  {
    if updates != [] {
      UntouchedByUpdates(g, updates[..|updates| - 1]);
    }
  }

  lemma AfterOneMore(g: Group, updates: seq<Update>, u: Update)
    ensures AfterUpdates(g, updates + [u]) == UpdateOne(AfterUpdates(g, updates), u)
  {
    assert (updates + [u])[..|updates|] == updates;
  }

  /** Updates meant for other groups miss this one. */
  lemma NotOwnedNotUpdated(groups: seq<Group>, plugins: seq<Plugin>, i: nat)
    requires DistinctGroupIds(groups) && i < |groups|
    requires forall k :: 0 <= k < |plugins| ==> Find(groups, plugins[k].id) != Some(i)
    ensures AfterUpdates(groups[i], Updates(groups, plugins)) == groups[i]
  {
    forall u | u in Updates(groups, plugins) ensures u.id != groups[i].id {
      UpdatesAre(groups, plugins, u);
    }
    UntouchedByUpdates(groups[i], Updates(groups, plugins));
  }

  /** The last plugin of a list updates its own group, if that is out of date, and no other. */
  lemma LastPluginUpdates(groups: seq<Group>, plugins: seq<Plugin>, i: nat)
    requires DistinctGroupIds(groups) && plugins != [] && i < |groups|
    ensures var n := |plugins| - 1; var p := plugins[n];
      var before := AfterUpdates(groups[i], Updates(groups, plugins[..n]));
      AfterUpdates(groups[i], Updates(groups, plugins)) ==
        if Find(groups, p.id) == Some(i) && OutOfDate(groups[i], p) then
          before.(name := p.displayName, disabled := !p.enabled)
        else before
  {
    hide Find;
    var n := |plugins| - 1;
    var p := plugins[n];
    var e := Find(groups, p.id);
    var updates := Updates(groups, plugins[..n]);
    if e.Some? && OutOfDate(groups[e.value], p) {
      var u := Update(groups[e.value].id, p.displayName, !p.enabled);
      AfterOneMore(groups[i], updates, u);
      assert e.value != i ==> groups[e.value].id != groups[i].id;
    } else {
      assert Updates(groups, plugins) == updates;
    }
  }

  lemma FindLaws(groups: seq<Group>, pluginId: string)
    ensures var i := Find(groups, pluginId);
      && (i.Some? ==> i.value < |groups| && groups[i.value].pluginId == Some(pluginId))
      && (i.Some? ==> forall j :: 0 <= j < i.value ==> groups[j].pluginId != Some(pluginId))
      && (i.None? ==> forall j :: 0 <= j < |groups| ==> groups[j].pluginId != Some(pluginId))
  {
  }

  predicate Owns(groups: seq<Group>, p: Plugin, i: nat) { Find(groups, p.id) == Some(i) }

  predicate SameState(p: Plugin, q: Plugin) { p.displayName == q.displayName && p.enabled == q.enabled }

  ghost predicate Owned(groups: seq<Group>, plugins: seq<Plugin>, i: nat) {
    exists k :: 0 <= k < |plugins| && Owns(groups, plugins[k], i)
  }

  ghost predicate OwnersAre(groups: seq<Group>, plugins: seq<Plugin>, p: Plugin, i: nat) {
    forall k :: 0 <= k < |plugins| && Owns(groups, plugins[k], i) ==> SameState(plugins[k], p)
  }

  lemma OwnersOfFront(groups: seq<Group>, plugins: seq<Plugin>, p: Plugin, i: nat)
    requires plugins != [] && OwnersAre(groups, plugins, p, i)
    ensures var front, last := plugins[..|plugins| - 1], plugins[|plugins| - 1];
      && OwnersAre(groups, front, p, i) && (Owns(groups, last, i) ==> SameState(last, p))
      && (Owned(groups, plugins, i) <==> Owned(groups, front, i) || Owns(groups, last, i))
  {
    hide Owns, SameState;
    var front := plugins[..|plugins| - 1];
    assert forall k :: 0 <= k < |front| ==> front[k] == plugins[k];
    if k :| 0 <= k < |plugins| && Owns(groups, plugins[k], i) {
      assert k < |front| ==> Owns(groups, front[k], i);
    }
    if k :| 0 <= k < |front| && Owns(groups, front[k], i) {
      assert Owns(groups, plugins[k], i);
    }
  }

  /** The owners of a group, when they agree, leave it with their name and state. */
  lemma {:induction false} OwnersUpdate(groups: seq<Group>, plugins: seq<Plugin>, p: Plugin, i: nat)
    requires DistinctGroupIds(groups) && i < |groups| && OwnersAre(groups, plugins, p, i)
    ensures AfterUpdates(groups[i], Updates(groups, plugins)) ==
            if Owned(groups, plugins, i) then groups[i].(name := p.displayName, disabled := !p.enabled) else groups[i]
  {
    if plugins != [] {
      hide DistinctGroupIds, Owns, Owned, OwnersAre, Updates, AfterUpdates;
      OwnersOfFront(groups, plugins, p, i);
      OwnersUpdate(groups, plugins[..|plugins| - 1], p, i);
      LastOwnerUpdates(groups, plugins, i);
    }
  }

  lemma LastOwnerUpdates(groups: seq<Group>, plugins: seq<Plugin>, i: nat)
    requires DistinctGroupIds(groups) && plugins != [] && i < |groups|
    ensures var n := |plugins| - 1; var p := plugins[n];
      var before := AfterUpdates(groups[i], Updates(groups, plugins[..n]));
      AfterUpdates(groups[i], Updates(groups, plugins)) ==
        if Owns(groups, p, i) && OutOfDate(groups[i], p) then
          before.(name := p.displayName, disabled := !p.enabled)
        else before
  {
    hide Find, Updates, AfterUpdates;
    LastPluginUpdates(groups, plugins, i);
  }

  /** A plugin's group ends up with the plugin's name and state. */
  lemma OwnedIsUpdated(groups: seq<Group>, plugins: seq<Plugin>, k: nat, i: nat)
    requires DistinctGroupIds(groups) && Agree(plugins)
    requires k < |plugins| && Find(groups, plugins[k].id) == Some(i)
    ensures AfterUpdates(groups[i], Updates(groups, plugins)) ==
            groups[i].(name := plugins[k].displayName, disabled := !plugins[k].enabled)
  {
    hide Find, Updates, AfterUpdates;
    FindLaws(groups, plugins[k].id);
    forall j | 0 <= j < |plugins| && Owns(groups, plugins[j], i) ensures SameState(plugins[j], plugins[k]) {
      FindLaws(groups, plugins[j].id);
    }
    assert Owns(groups, plugins[k], i) && OwnersAre(groups, plugins, plugins[k], i);
    OwnersUpdate(groups, plugins, plugins[k], i);
  }

  // ---- One reconcile, and the groups it leaves ----

  ghost predicate Sound(o: Org, r: Request) { OrgOk(o) && EnoughIds(o, r) && FreshIds(o, r) }

  function Creations(o: Org, r: Request): seq<Create> { Creates(o.groups, r.plugins) }

  /** An old group keeps its place; it loses its plugin when that is gone, and else takes its updates. */
  lemma GroupAfter(o: Org, r: Request, i: nat)
    requires Sound(o, r) && i < |o.groups|
    ensures var post := Reconciled(o, r).groups; var g := o.groups[i];
      && |post| == |o.groups| + |Creations(o, r)|
      && post[i].id == g.id
      && if Orphaned(g, r.plugins) then post[i].pluginId == None && !post[i].disabled
         else post[i] == AfterUpdates(g, Updates(o.groups, r.plugins))
  {
    hide Orphaned, Find, Seeds, Creates, Updates, Releases, Reassigns, UngroupedFlows, AfterUpdates, FlowsAfter;
    ReleasesAre(o.groups, r.plugins, o.groups[i].id);
    assert forall j :: 0 <= j < |o.groups| && o.groups[j].id == o.groups[i].id ==> j == i;
  }

  /** A created group is as the plan asked. */
  lemma NewGroupAfter(o: Org, r: Request, n: nat)
    requires Sound(o, r) && n < |Creations(o, r)|
    ensures var post := Reconciled(o, r).groups;
      && |post| == |o.groups| + |Creations(o, r)|
      && post[|o.groups| + n] == NewGroup(Creations(o, r)[n], r.groupIds[n])
  {
    hide Orphaned, Find, Seeds, Creates, Updates, Releases, Reassigns, UngroupedFlows, OrgOk, FlowsAfter;
    var plan := PlanOf(o, r.profile, r.plugins);
    var g := NewGroup(plan.creates[n], r.groupIds[n]);
    forall u | u in plan.updates ensures u.id != g.id {
      UpdatesAre(o.groups, r.plugins, u);
    }
    UntouchedByUpdates(g, plan.updates);
    ReleasesAre(o.groups, r.plugins, g.id);
  }

  lemma ListedIsNotOrphaned(g: Group, plugins: seq<Plugin>, k: nat)
    requires k < |plugins|
    ensures g.pluginId == Some(plugins[k].id) ==> !Orphaned(g, plugins)
  {
  }

  lemma PluginAfter(o: Org, r: Request, k: nat, i: nat)
    requires Sound(o, r) && k < |r.plugins| && i < |o.groups|
    ensures i < |Reconciled(o, r).groups|
    ensures Reconciled(o, r).groups[i].pluginId == Some(r.plugins[k].id) <==>
            o.groups[i].pluginId == Some(r.plugins[k].id)
  {
    hide Orphaned, OrgOk, EnoughIds, FreshIds;
    GroupAfter(o, r, i);
    ListedIsNotOrphaned(o.groups[i], r.plugins, k);
  }

  /** Where a plugin's group is afterwards: an old one keeps its place, a new one comes behind. */
  lemma FindAfter(o: Org, r: Request, k: nat)
    requires Sound(o, r) && k < |r.plugins|
    ensures var post := Reconciled(o, r).groups; var p := r.plugins[k];
      && Find(post, p.id).Some?
      && (Find(o.groups, p.id).Some? ==> Find(post, p.id) == Find(o.groups, p.id))
      && (Find(o.groups, p.id).None? ==> Find(post, p.id).value >= |o.groups|)
  {
    hide OrgOk, EnoughIds, FreshIds, Find, Reconciled, Creations;
    var post := Reconciled(o, r).groups;
    var p := r.plugins[k];
    forall i: nat | i < |o.groups|
      ensures i < |post| && (post[i].pluginId == Some(p.id) <==> o.groups[i].pluginId == Some(p.id))
    {
      PluginAfter(o, r, k, i);
    }
    var e := Find(o.groups, p.id);
    FindLaws(o.groups, p.id);
    FindLaws(post, p.id);
    if e.Some? {
      FindIs(post, p.id, e.value);
    } else {
      var n := CreationOf(o, r, k);
      NewGroupAfter(o, r, n);
      assert post[|o.groups| + n].pluginId == Some(p.id);
    }
  }

  lemma CreationOf(o: Org, r: Request, k: nat) returns (n: nat)
    requires k < |r.plugins| && Find(o.groups, r.plugins[k].id).None?
    ensures n < |Creations(o, r)| && CreateFrom(o.groups, r.plugins[k], Creations(o, r)[n])
  {
    var p := r.plugins[k];
    var c := Create(TempKey(p.id), p.displayName, p.id, !p.enabled);
    assert CreateFrom(o.groups, p, c);
    CreatesAre(o.groups, r.plugins, c);
    n :| n < |Creations(o, r)| && Creations(o, r)[n] == c;
  }

  /** Every listed plugin then has a group with its name and state. */
  lemma PluginIsUpToDate(o: Org, r: Request, k: nat)
    requires Sound(o, r) && Agree(r.plugins) && k < |r.plugins|
    ensures var post := Reconciled(o, r).groups; var e := Find(post, r.plugins[k].id);
      e.Some? && !OutOfDate(post[e.value], r.plugins[k])
  {
    hide OrgOk, EnoughIds, FreshIds, Find, Reconciled, Creations, Orphaned;
    var post := Reconciled(o, r).groups;
    var p := r.plugins[k];
    FindAfter(o, r, k);
    FindLaws(post, p.id);
    var i := Find(post, p.id).value;
    if i < |o.groups| {
      FindLaws(o.groups, p.id);
      assert Find(o.groups, p.id) == Some(i);
      GroupAfter(o, r, i);
      ListedIsNotOrphaned(o.groups[i], r.plugins, k);
      SoundIsDistinct(o, r);
      OwnedIsUpdated(o.groups, r.plugins, k, i);
    } else {
      NewGroupIsUpToDate(o, r, k, i - |o.groups|);
    }
  }

  lemma SoundIsDistinct(o: Org, r: Request)
    requires Sound(o, r)
    ensures DistinctGroupIds(o.groups) && RealIds(o.groups)
    ensures |Reconciled(o, r).groups| == |o.groups| + |Creations(o, r)|
  {
  }

  lemma NewGroupIsUpToDate(o: Org, r: Request, k: nat, n: nat)
    requires Sound(o, r) && Agree(r.plugins) && k < |r.plugins|
    requires |o.groups| + n < |Reconciled(o, r).groups|
    requires Reconciled(o, r).groups[|o.groups| + n].pluginId == Some(r.plugins[k].id)
    ensures !OutOfDate(Reconciled(o, r).groups[|o.groups| + n], r.plugins[k])
  {
    hide OrgOk, EnoughIds, FreshIds, Find, Reconciled;
    SoundIsDistinct(o, r);
    NewGroupAfter(o, r, n);
    CreatesAre(o.groups, r.plugins, Creations(o, r)[n]);
    var j :| 0 <= j < |r.plugins| && CreateFrom(o.groups, r.plugins[j], Creations(o, r)[n]);
    assert r.plugins[j].id == r.plugins[k].id;
  }
}
