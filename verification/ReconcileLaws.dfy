/** What one reconcile call makes of each group and each flow, told from the rows and the plugins. */
module ReconcileLaws {
  import opened Wrappers
  import opened ReconcilePlan
  import opened ReconcileStore
  import opened ReconcileProofs
  import opened ReconcileConvergence
  import opened ReconcileTheorems

  ghost predicate Listed(plugins: seq<Plugin>, id: string) { exists k :: 0 <= k < |plugins| && plugins[k].id == id }

  predicate IsFurther(groups: seq<Group>, i: nat)
    requires i < |groups|
  {
    exists j :: 0 <= j < i && groups[j].pluginId == groups[i].pluginId
  }

  /** The plugin's name and state. */
  predicate Takes(h: Group, g: Group, p: Plugin) { h == Group(g.id, p.displayName, g.pluginId, !p.enabled) }

  /** A group that was there: one without a plugin stays as it is; one whose plugin is gone is released; the
      first one of a listed plugin takes its name and state; any further one of it stays as it is. */
  lemma OldGroupTold(o: Org, r: Request, i: nat)
    requires Sound(o, r) && i < |o.groups|
    ensures i < |Reconciled(o, r).groups|
    ensures var g, h := o.groups[i], Reconciled(o, r).groups[i];
      if g.pluginId.None? then h == g
      else if !Listed(r.plugins, g.pluginId.value) then
        h == if g.pluginId.value == "" then g else Group(g.id, g.name, None, false)
      else if IsFurther(o.groups, i) then h == g
      else
        Agree(r.plugins) ==>
          forall k :: 0 <= k < |r.plugins| && g.pluginId == Some(r.plugins[k].id) ==> Takes(h, g, r.plugins[k])
  {
    hide OrgOk, EnoughIds, FreshIds, Find, Reconciled, AfterUpdates, Updates;
    var g := o.groups[i];
    GroupAfter(o, r, i);
    SoundIsDistinct(o, r);
    if g.pluginId.None? {
      UserGroupsUntouched(o, r, i);
    } else if !Listed(r.plugins, g.pluginId.value) {
      NotFirstNotUpdated(o, r, i);
      ReleasedKeeps(o, r, i);
    } else if IsFurther(o.groups, i) {
      NotFirstNotUpdated(o, r, i);
      var k :| 0 <= k < |r.plugins| && r.plugins[k].id == g.pluginId.value;
      ListedIsNotOrphaned(g, r.plugins, k);
    } else if Agree(r.plugins) {
      forall k | 0 <= k < |r.plugins| && g.pluginId == Some(r.plugins[k].id)
        ensures Takes(Reconciled(o, r).groups[i], g, r.plugins[k])
      {
        FindIs(o.groups, r.plugins[k].id, i);
        ListedIsNotOrphaned(g, r.plugins, k);
        OwnedIsUpdated(o.groups, r.plugins, k, i);
      }
    }
  }

  lemma NotFirstNotUpdated(o: Org, r: Request, i: nat)
    requires Sound(o, r) && i < |o.groups|
    requires o.groups[i].pluginId.Some? && (Listed(r.plugins, o.groups[i].pluginId.value) ==> IsFurther(o.groups, i))
    ensures AfterUpdates(o.groups[i], Updates(o.groups, r.plugins)) == o.groups[i]
  {
    hide EnoughIds, FreshIds, Find, AfterUpdates, Updates;
    forall k | 0 <= k < |r.plugins| ensures Find(o.groups, r.plugins[k].id) != Some(i) {
      FindLaws(o.groups, r.plugins[k].id);
    }
    NotOwnedNotUpdated(o.groups, r.plugins, i);
  }

  /** A released group keeps its id and name. */
  lemma ReleasedKeeps(o: Org, r: Request, i: nat)
    requires Sound(o, r) && i < |o.groups|
    requires AfterUpdates(o.groups[i], Updates(o.groups, r.plugins)) == o.groups[i]
    ensures i < |Reconciled(o, r).groups|
    ensures Reconciled(o, r).groups[i].id == o.groups[i].id && Reconciled(o, r).groups[i].name == o.groups[i].name
  {
    hide OrgOk, FreshIds, Orphaned, Find, Seeds, Creates, Updates, Releases, Reassigns, UngroupedFlows, AfterUpdates,
      FlowsAfter;
  }

  ghost predicate MadeFor(g: Group, id: string, groups: seq<Group>, p: Plugin) {
    && g == Group(id, p.displayName, Some(p.id), !p.enabled)
    && forall j :: 0 <= j < |groups| ==> groups[j].pluginId != Some(p.id)
  }

  /** A creation is made from a listed plugin which had no group. */
  lemma CreationIsFrom(o: Org, r: Request, n: nat) returns (k: nat)
    requires n < |Creations(o, r)|
    ensures k < |r.plugins| && Creations(o, r)[n].name == r.plugins[k].displayName
    ensures Creations(o, r)[n].pluginId == r.plugins[k].id && Creations(o, r)[n].disabled == !r.plugins[k].enabled
    ensures forall j :: 0 <= j < |o.groups| ==> o.groups[j].pluginId != Some(r.plugins[k].id)
  {
    hide Find, Creates;
    var c := Creations(o, r)[n];
    CreatesAre(o.groups, r.plugins, c);
    k :| 0 <= k < |r.plugins| && CreateFrom(o.groups, r.plugins[k], c);
    FindLaws(o.groups, r.plugins[k].id);
  }

  /** A new group is that of a listed plugin which had none, under the new id drawn for it. */
  lemma NewGroupTold(o: Org, r: Request, i: nat)
    requires Sound(o, r) && |o.groups| <= i < |Reconciled(o, r).groups|
    ensures i - |o.groups| < |r.groupIds|
    ensures exists k ::
      0 <= k < |r.plugins| &&
      MadeFor(Reconciled(o, r).groups[i], r.groupIds[i - |o.groups|], o.groups, r.plugins[k])
  {
    hide OrgOk, FreshIds, Find, Reconciled, EnoughIds, Creations, Creates, PlanOf, Seeds;
    EnoughGroupIds(o, r);
    SoundIsDistinct(o, r);
    var n := i - |o.groups|;
    NewGroupAfter(o, r, n);
    var k := CreationIsFrom(o, r, n);
    assert MadeFor(Reconciled(o, r).groups[i], r.groupIds[n], o.groups, r.plugins[k]);
  }

  /** A flow that was there keeps all but its group, and that too if it had one; it gets one exactly when it
      comes from a template of a listed plugin. */
  lemma OldFlowTold(o: Org, r: Request, i: nat)
    requires Sound(o, r) && i < |o.flows|
    ensures i < |Reconciled(o, r).flows|
    ensures var f, h := o.flows[i], Reconciled(o, r).flows[i];
      && h == f.(groupId := h.groupId)
      && (f.groupId.Some? ==> h == f)
      && (f.groupId.None? ==> (h.groupId.Some? <==>
            f.source.Some? && f.source.value.pluginId != "" && Listed(r.plugins, f.source.value.pluginId)))
  {
    hide OrgOk, FreshIds, Creates, Updates, Releases, Reassigns, UngroupedFlows, Ref, Seeds;
    var plan := PlanOf(o, r.profile, r.plugins);
    var temp := TempIds(plan.creates, r.groupIds);
    var f := o.flows[i];
    ReassignsKeepId(f, plan.reassigns, temp);
    GroupedIfReassigned(f, plan.reassigns, temp);
    if x :| x in plan.reassigns && x.flowId == f.id {
      ReassignsAre(o.groups, UngroupedFlows(o.flows), r.plugins, x);
      var k :| 0 <= k < |r.plugins| && Ungrouped(f.id, Some(r.plugins[k].id)) in UngroupedFlows(o.flows);
      OnlyUngroupedMove(o, r, i, r.plugins[k].id);
    }
    if f.groupId.None? && f.source.Some? && f.source.value.pluginId != "" {
      if k :| 0 <= k < |r.plugins| && r.plugins[k].id == f.source.value.pluginId {
        UngroupedAre(o.flows, Ungrouped(f.id, Owner(f)));
        var x := Reassign(f.id, Ref(o.groups, r.plugins[k]));
        ReassignsAre(o.groups, UngroupedFlows(o.flows), r.plugins, x);
      }
    }
  }

  lemma OnlyUngroupedMove(o: Org, r: Request, i: nat, pluginId: string)
    requires Sound(o, r) && i < |o.flows| && Ungrouped(o.flows[i].id, Some(pluginId)) in UngroupedFlows(o.flows)
    ensures o.flows[i].groupId.None? && Owner(o.flows[i]) == Some(pluginId)
  {
    hide EnoughIds, FreshIds;
    UngroupedAre(o.flows, Ungrouped(o.flows[i].id, Some(pluginId)));
  }

  /** A seed is a template of an enabled listed plugin. */
  lemma SeedIsFrom(o: Org, r: Request, s: Seed) returns (k: nat, j: nat)
    requires s in PlanOf(o, r.profile, r.plugins).seeds
    ensures k < |r.plugins| && r.plugins[k].enabled && j < |r.plugins[k].templates|
    ensures s.pluginId == r.plugins[k].id && s.template == r.plugins[k].templates[j]
  {
    hide Creates, Updates, Releases, Reassigns, UngroupedFlows, Ref, Seeds;
    SeedsGood(o.groups, r.plugins, InstalledFor(o, r.profile));
    assert SeedFrom(o.groups, r.plugins, s);
    k :| 0 <= k < |r.plugins| && r.plugins[k].enabled && s.pluginId == r.plugins[k].id &&
      s.template in r.plugins[k].templates;
    j :| 0 <= j < |r.plugins[k].templates| && r.plugins[k].templates[j] == s.template;
  }

  /** A seeded flow is a template of an enabled listed plugin, its name and content as they are there, under
      the new id drawn for it, and remembers plugin and template. */
  lemma NewFlowTold(o: Org, r: Request, i: nat)
    requires Sound(o, r) && |o.flows| <= i < |Reconciled(o, r).flows|
    ensures i - |o.flows| < |r.flowIds|
    ensures exists k, j ::
      0 <= k < |r.plugins| && r.plugins[k].enabled && 0 <= j < |r.plugins[k].templates| &&
      SeededFrom(Reconciled(o, r).flows[i], r.flowIds[i - |o.flows|], r.plugins[k], r.plugins[k].templates[j])
  {
    hide OrgOk, FreshIds, PlanOf, Resolve, GroupsAfter;
    var k, j := SeedIsFrom(o, r, PlanOf(o, r.profile, r.plugins).seeds[i - |o.flows|]);
    assert SeededFrom(Reconciled(o, r).flows[i], r.flowIds[i - |o.flows|], r.plugins[k], r.plugins[k].templates[j]);
  }

  predicate SeededFrom(f: Flow, id: string, p: Plugin, t: Template) {
    && f.id == id && f.name == t.name && f.content == t.content && f.groupId.Some?
    && f.source == Some(Source(p.id, t.id))
  }

  // ---- the keys recorded ----

  predicate ReadsOn(p: string, a: string, q: string, b: string, x: string) { q == p + ":" + x && a == x + ":" + b }

  lemma KeySplit(p: string, a: string, q: string, b: string)
    requires |p| < |q| && Key(p, a) == Key(q, b)
    ensures ReadsOn(p, a, q, b, q[|p| + 1..])
  {
    var k := Key(p, a);
    assert k[|p|] == ':' && k[|p| + 1..] == a && k[..|q|] == q && k[|q|] == ':' && k[|q| + 1..] == b;
    var x := q[|p| + 1..];
    assert q == k[..|q|] && p == k[..|p|];
    assert k[|p| + 1..] == k[|p| + 1..|q|] + (k[|q|..|q| + 1] + k[|q| + 1..]);
    assert x == k[|p| + 1..|q|] && k[|q|..|q| + 1] == ":";
  }

  /** Two templates go by one key exactly when they are one, or one plugin's id goes on from the other's with a
      colon and takes the beginning of the template's id along. Ids of plugins without colons keep keys apart. */
  lemma SameKeyExactly(p: string, a: string, q: string, b: string)
    ensures Key(p, a) == Key(q, b) <==>
      (p == q && a == b) || (exists x :: ReadsOn(p, a, q, b, x)) || (exists x :: ReadsOn(q, b, p, a, x))
    ensures ':' !in p && ':' !in q ==> (Key(p, a) == Key(q, b) <==> p == q && a == b)
  {
    if x :| ReadsOn(p, a, q, b, x) {
      assert p + ":" + (x + ":" + b) == (p + ":" + x) + ":" + b;
      assert q[|p|] == ':';
    }
    if x :| ReadsOn(q, b, p, a, x) {
      assert q + ":" + (x + ":" + a) == (q + ":" + x) + ":" + a;
      assert p[|q|] == ':';
    }
    if Key(p, a) == Key(q, b) {
      if |p| < |q| {
        KeySplit(p, a, q, b);
      } else if |q| < |p| {
        KeySplit(q, b, p, a);
      } else {
        assert p == Key(p, a)[..|p|] && a == Key(p, a)[|p| + 1..];
        assert q == Key(q, b)[..|q|] && b == Key(q, b)[|q| + 1..];
      }
    }
  }
}
