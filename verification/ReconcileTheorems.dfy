/** The main results about reconciling an organisation's plugin flows. */
module ReconcileTheorems {
  import opened Wrappers
  import opened ReconcilePlan
  import opened ReconcileStore
  import opened ReconcileProofs
  import opened ReconcileConvergence

  // ---- Reconciling keeps rows apart ----

  lemma GroupIdsAfter(o: Org, r: Request)
    requires Sound(o, r)
    ensures DistinctGroupIds(Reconciled(o, r).groups) && RealIds(Reconciled(o, r).groups)
  {
    hide EnoughIds, Reconciled, Creations, Orphaned;
    var post := Reconciled(o, r).groups;
    var n := |o.groups|;
    SoundIsDistinct(o, r);
    assert |r.groupIds| >= |post| - n by { EnoughGroupIds(o, r); }
    forall i: nat | i < |post|
      ensures post[i].id == if i < n then o.groups[i].id else r.groupIds[i - n]
    {
      if i < n { GroupAfter(o, r, i); } else { NewGroupAfter(o, r, i - n); }
    }
  }

  lemma EnoughGroupIds(o: Org, r: Request)
    requires EnoughIds(o, r)
    ensures |r.groupIds| >= |Creations(o, r)|
  {
  }

  lemma FlowIdsAfter(o: Org, r: Request)
    requires Sound(o, r)
    ensures DistinctFlowIds(Reconciled(o, r).flows)
  {
    hide Creates, Updates, Releases, Reassigns, Seeds, UngroupedFlows, GroupsAfter;
    var post := Reconciled(o, r).flows;
    var plan := PlanOf(o, r.profile, r.plugins);
    forall i: nat | i < |post|
      ensures post[i].id == if i < |o.flows| then o.flows[i].id else r.flowIds[i - |o.flows|]
    {
      if i < |o.flows| {
        ReassignsKeepId(o.flows[i], plan.reassigns, TempIds(plan.creates, r.groupIds));
      }
    }
  }

  /** Ids stay distinct, and none looks like a temporary key. */
  lemma ReconcileKeepsOk(o: Org, r: Request)
    requires Sound(o, r)
    ensures OrgOk(Reconciled(o, r))
  {
    hide Reconciled;
    GroupIdsAfter(o, r);
    FlowIdsAfter(o, r);
  }

  lemma {:induction false} ReassignsKeepId(f: Flow, reassigns: seq<Reassign>, temp: map<string, string>)
    ensures var g := AfterReassigns(f, reassigns, temp); g == f.(groupId := g.groupId)
  {
    if reassigns != [] {
      ReassignsKeepId(f, reassigns[..|reassigns| - 1], temp);
    }
  }

  // ---- Nothing is left to do ----

  lemma {:induction false} NothingToUpdate(groups: seq<Group>, plugins: seq<Plugin>)
    requires forall k :: 0 <= k < |plugins| ==>
      var e := Find(groups, plugins[k].id); e.Some? && !OutOfDate(groups[e.value], plugins[k])
    ensures Updates(groups, plugins) == []
  {
    hide Find, OutOfDate;
    if plugins != [] {
      var front := plugins[..|plugins| - 1];
      forall k | 0 <= k < |front|
        ensures var e := Find(groups, front[k].id); e.Some? && !OutOfDate(groups[e.value], front[k])
      {
        assert front[k] == plugins[k];
      }
      NothingToUpdate(groups, front);
    }
  }

  lemma NothingToRelease(o: Org, r: Request)
    requires Sound(o, r)
    ensures Releases(Reconciled(o, r).groups, r.plugins) == []
  {
    hide OrgOk, EnoughIds, FreshIds, Reconciled, Find;
    var post := Reconciled(o, r).groups;
    SoundIsDistinct(o, r);
    forall i: nat | i < |post| ensures !Orphaned(post[i], r.plugins) {
      if i < |o.groups| {
        GroupAfter(o, r, i);
      } else {
        NewGroupAfter(o, r, i - |o.groups|);
        CreatesAre(o.groups, r.plugins, Creations(o, r)[i - |o.groups|]);
      }
    }
    if Releases(post, r.plugins) != [] {
      ReleasesAre(post, r.plugins, Releases(post, r.plugins)[0]);
    }
  }

  lemma {:induction false} GroupedIfReassigned(f: Flow, reassigns: seq<Reassign>, temp: map<string, string>)
    ensures var g := AfterReassigns(f, reassigns, temp);
      if exists r :: r in reassigns && r.flowId == f.id then g.groupId.Some? else g == f
  {
    if reassigns != [] {
      ReassignsKeepId(f, reassigns[..|reassigns| - 1], temp);
      GroupedIfReassigned(f, reassigns[..|reassigns| - 1], temp);
    }
  }

  lemma NothingToReassign(o: Org, r: Request, groups: seq<Group>)
    requires Sound(o, r)
    ensures Reassigns(groups, UngroupedFlows(Reconciled(o, r).flows), r.plugins) == []
  {
    hide OrgOk, FreshIds, Ref, Owner, Reassigns, UngroupedFlows, Creates, Updates, Releases, Seeds;
    var plan := PlanOf(o, r.profile, r.plugins);
    var post := Reconciled(o, r).flows;
    var left := Reassigns(groups, UngroupedFlows(post), r.plugins);
    if left != [] {
      var x := left[0];
      ReassignsAre(groups, UngroupedFlows(post), r.plugins, x);
      var k :| 0 <= k < |r.plugins| && Ungrouped(x.flowId, Some(r.plugins[k].id)) in UngroupedFlows(post);
      UngroupedAre(post, Ungrouped(x.flowId, Some(r.plugins[k].id)));
      var i :| 0 <= i < |post| && post[i].groupId.None? && post[i].id == x.flowId &&
               Owner(post[i]) == Some(r.plugins[k].id);
      StillUngrouped(o, r, i, k);
    }
  }

  /** A flow that stays ungrouped belongs to no listed plugin. */
  lemma StillUngrouped(o: Org, r: Request, i: nat, k: nat)
    requires Sound(o, r) && i < |Reconciled(o, r).flows| && k < |r.plugins|
    requires Reconciled(o, r).flows[i].groupId.None?
    ensures Owner(Reconciled(o, r).flows[i]) != Some(r.plugins[k].id)
  {
    hide OrgOk, FreshIds, Reassigns, UngroupedFlows, Creates, Updates, Releases, Seeds;
    var plan := PlanOf(o, r.profile, r.plugins);
    var f := o.flows[i];
    GroupedIfReassigned(f, plan.reassigns, TempIds(plan.creates, r.groupIds));
    var pid := r.plugins[k].id;
    if Owner(f) == Some(pid) {
      UngroupedAre(o.flows, Ungrouped(f.id, Some(pid)));
      var x := Reassign(f.id, Ref(o.groups, r.plugins[k]));
      ReassignsAre(o.groups, UngroupedFlows(o.flows), r.plugins, x);
    }
  }

  // ---- Seeds, whichever groups they go to ----

  lemma {:induction false} SameKeysOfTemplates(a: seq<Seed>, b: seq<Seed>, p: Plugin, aRef: string, bRef: string,
                                               n: nat, installed: seq<string>)
    requires KeysOf(a) == KeysOf(b) && n <= |p.templates|
    ensures KeysOf(SeedTemplates(a, p, aRef, n, installed)) == KeysOf(SeedTemplates(b, p, bRef, n, installed))
  {
    hide KeysOf, Key;
    if n > 0 {
      SameKeysOfTemplates(a, b, p, aRef, bRef, n - 1, installed);
      var t := p.templates[n - 1];
      KeysOfAppend(SeedTemplates(a, p, aRef, n - 1, installed), Seed(p.id, t, aRef));
      KeysOfAppend(SeedTemplates(b, p, bRef, n - 1, installed), Seed(p.id, t, bRef));
    }
  }

  /** Which keys are seeded depends on the plugins and the recorded keys alone, not on the groups. */
  lemma {:induction false} SameKeys(g: seq<Group>, h: seq<Group>, plugins: seq<Plugin>, installed: seq<string>)
    ensures KeysOf(Seeds(g, plugins, installed)) == KeysOf(Seeds(h, plugins, installed))
  {
    hide KeysOf, Ref, SeedTemplates;
    if plugins != [] {
      var n := |plugins| - 1;
      SameKeys(g, h, plugins[..n], installed);
      if plugins[n].enabled {
        SameKeysOfTemplates(Seeds(g, plugins[..n], installed), Seeds(h, plugins[..n], installed), plugins[n],
                            Ref(g, plugins[n]), Ref(h, plugins[n]), |plugins[n].templates|, installed);
      }
    }
  }

  /** An enabled plugin of the list has a template with this key. */
  ghost predicate Offers(plugins: seq<Plugin>, key: string) {
    exists k, j ::
      0 <= k < |plugins| && plugins[k].enabled && 0 <= j < |plugins[k].templates|
      && key == Key(plugins[k].id, plugins[k].templates[j].id)
  }

  lemma {:induction false} NothingToSeed(groups: seq<Group>, plugins: seq<Plugin>, installed: seq<string>)
    requires forall k, j :: 0 <= k < |plugins| && plugins[k].enabled && 0 <= j < |plugins[k].templates| ==>
      Key(plugins[k].id, plugins[k].templates[j].id) in installed
    ensures Seeds(groups, plugins, installed) == []
  {
    var seeds := Seeds(groups, plugins, installed);
    SeedsGood(groups, plugins, installed);
    if seeds != [] {
      assert SeedFrom(groups, plugins, seeds[0]);
      SeedKeyIsATemplates(groups, plugins, seeds[0]);
    }
  }

  lemma SeedKeyIsATemplates(groups: seq<Group>, plugins: seq<Plugin>, s: Seed)
    requires SeedFrom(groups, plugins, s)
    ensures Offers(plugins, SeedKey(s))
  {
    var k :| 0 <= k < |plugins| && plugins[k].enabled && s.pluginId == plugins[k].id &&
      s.template in plugins[k].templates;
    var j :| 0 <= j < |plugins[k].templates| && plugins[k].templates[j] == s.template;
  }

  lemma SeedsAfter(o: Org, r: Request, groups: seq<Group>)
    requires EnoughIds(o, r)
    ensures var plan := PlanOf(o, r.profile, r.plugins);
      var again := Seeds(groups, r.plugins, InstalledFor(Reconciled(o, r), r.profile));
      again == [] <==> r.profile.Some? || plan.seeds == []
  {
    var plan := PlanOf(o, r.profile, r.plugins);
    var installed := InstalledFor(o, r.profile);
    var later := InstalledFor(Reconciled(o, r), r.profile);
    if r.profile.Some? {
      assert later == installed + plan.keysToAdd;
      SeedsGood(o.groups, r.plugins, installed);
      NothingToSeed(groups, r.plugins, later);
    } else {
      SameKeys(groups, o.groups, r.plugins, installed);
    }
  }

  lemma {:induction false} UpdateListed(groups: seq<Group>, plugins: seq<Plugin>, k: nat)
    requires k < |plugins| && Find(groups, plugins[k].id).Some?
    requires OutOfDate(groups[Find(groups, plugins[k].id).value], plugins[k])
    ensures Updates(groups, plugins) != []
  {
    hide Find, OutOfDate;
    if k < |plugins| - 1 {
      UpdateListed(groups, plugins[..|plugins| - 1], k);
    }
  }

  lemma {:induction false} NothingToCreate(groups: seq<Group>, plugins: seq<Plugin>)
    requires forall k :: 0 <= k < |plugins| ==> Find(groups, plugins[k].id).Some?
    ensures Creates(groups, plugins) == []
  {
    hide Find;
    if plugins != [] {
      NothingToCreate(groups, plugins[..|plugins| - 1]);
    }
  }

  /** Two entries of one plugin that disagree keep the group out of date for one of them. */
  lemma UpdatesEndExactly(o: Org, r: Request)
    requires Sound(o, r)
    ensures var post := Reconciled(o, r).groups;
      Creates(post, r.plugins) == [] && (Updates(post, r.plugins) == [] <==> Agree(r.plugins))
  {
    hide OrgOk, EnoughIds, FreshIds, Find, Reconciled;
    var post := Reconciled(o, r).groups;
    forall k | 0 <= k < |r.plugins| ensures Find(post, r.plugins[k].id).Some? {
      FindAfter(o, r, k);
    }
    NothingToCreate(post, r.plugins);
    if Agree(r.plugins) {
      forall k | 0 <= k < |r.plugins|
        ensures var e := Find(post, r.plugins[k].id); e.Some? && !OutOfDate(post[e.value], r.plugins[k])
      {
        PluginIsUpToDate(o, r, k);
      }
      NothingToUpdate(post, r.plugins);
    } else {
      var i, j :| 0 <= i < |r.plugins| && 0 <= j < |r.plugins| && r.plugins[i].id == r.plugins[j].id &&
        !(r.plugins[i].displayName == r.plugins[j].displayName && r.plugins[i].enabled == r.plugins[j].enabled);
      var g := post[Find(post, r.plugins[i].id).value];
      UpdateListed(post, r.plugins, if OutOfDate(g, r.plugins[i]) then i else j);
    }
  }

  /** Planning again with the same plugins finds nothing to do, exactly when a plugin listed twice is
      listed the same, and the call could record the keys it seeded, because the member has a profile,
      or had none to record. */
  lemma ReconcileConverges(o: Org, r: Request)
    requires Sound(o, r)
    ensures var again := PlanOf(Reconciled(o, r), r.profile, r.plugins);
      && again.creates == [] && again.reassigns == [] && again.releases == []
      && (again == Plan([], [], [], [], [], []) <==>
          Agree(r.plugins) && (r.profile.Some? || PlanOf(o, r.profile, r.plugins).seeds == []))
  {
    hide OrgOk, EnoughIds, FreshIds, Find, OutOfDate, Reconciled, Agree;
    UpdatesEndExactly(o, r);
    NothingToRelease(o, r);
    NothingToReassign(o, r, Reconciled(o, r).groups);
    SeedsAfter(o, r, Reconciled(o, r).groups);
  }

  /** Groups the members made themselves are left alone. */
  lemma UserGroupsUntouched(o: Org, r: Request, i: nat)
    requires Sound(o, r) && i < |o.groups| && o.groups[i].pluginId == None
    ensures Reconciled(o, r).groups[i] == o.groups[i]
  {
    hide EnoughIds, FreshIds, Find;
    GroupAfter(o, r, i);
    forall k | 0 <= k < |r.plugins| ensures Find(o.groups, r.plugins[k].id) != Some(i) {
      FindLaws(o.groups, r.plugins[k].id);
    }
    NotOwnedNotUpdated(o.groups, r.plugins, i);
  }

  // ---- References ----

  ghost predicate GroupOf(groups: seq<Group>, id: string, pluginId: string) {
    exists i :: 0 <= i < |groups| && groups[i].id == id && groups[i].pluginId == Some(pluginId)
  }

  lemma {:induction false} TempIdsAre(creates: seq<Create>, ids: seq<string>, key: string)
    requires |ids| >= |creates|
    ensures key in TempIds(creates, ids) <==> exists n :: 0 <= n < |creates| && creates[n].tempKey == key
    ensures key in TempIds(creates, ids) ==>
      exists n :: 0 <= n < |creates| && creates[n].tempKey == key && TempIds(creates, ids)[key] == ids[n]
  {
    if creates != [] {
      TempIdsAre(creates[..|creates| - 1], ids, key);
    }
  }

  lemma TempKeyInjective(a: string, b: string)
    ensures IsTemp(TempKey(a))
    ensures TempKey(a) == TempKey(b) ==> a == b
  {
    assert TempKey(a)[4..] == a && TempKey(b)[4..] == b;
    assert TempKey(a)[..4] == "new:";
  }

  /** The group a plugin's flows are sent to exists afterwards and is that plugin's. */
  lemma RefResolves(o: Org, r: Request, k: nat)
    requires Sound(o, r) && k < |r.plugins|
    ensures var temp := TempIds(Creations(o, r), r.groupIds);
      GroupOf(Reconciled(o, r).groups, Resolve(temp, Ref(o.groups, r.plugins[k])), r.plugins[k].id)
  {
    hide OrgOk, FreshIds, Find, Reconciled, Creates, TempIds, TempKey, IsTemp;
    var post := Reconciled(o, r).groups;
    var p := r.plugins[k];
    var groupRef := Ref(o.groups, p);
    var creates := Creations(o, r);
    assert |r.groupIds| >= |creates|;
    TempIdsAre(creates, r.groupIds, groupRef);
    SoundIsDistinct(o, r);
    var e := Find(o.groups, p.id);
    if e.Some? {
      forall n | 0 <= n < |creates| ensures IsTemp(creates[n].tempKey) {
        TempKeyInjective(creates[n].pluginId, p.id);
        CreatesAre(o.groups, r.plugins, creates[n]);
      }
      FindLaws(o.groups, p.id);
      PluginAfter(o, r, k, e.value);
      GroupAfter(o, r, e.value);
    } else {
      var m := CreationOf(o, r, k);
      var n :| 0 <= n < |creates| && creates[n].tempKey == groupRef &&
               TempIds(creates, r.groupIds)[groupRef] == r.groupIds[n];
      TempKeyInjective(creates[n].pluginId, p.id);
      CreatesAre(o.groups, r.plugins, creates[n]);
      NewGroupAfter(o, r, n);
      assert post[|o.groups| + n].id == r.groupIds[n];
    }
  }

  /** Every flow the plan moves or seeds ends up in a group of its own plugin. */
  lemma FlowsLandInTheirPluginsGroup(o: Org, r: Request, i: nat)
    requires Sound(o, r) && i < |Reconciled(o, r).flows|
    ensures var post := Reconciled(o, r); var f := post.flows[i];
      if i >= |o.flows| then
        f.source.Some? && f.groupId.Some? && GroupOf(post.groups, f.groupId.value, f.source.value.pluginId)
      else f == o.flows[i] ||
           (o.flows[i].groupId.None? && Owner(f).Some? && f.groupId.Some? &&
            GroupOf(post.groups, f.groupId.value, Owner(f).value))
  {
    hide OrgOk, FreshIds, Creates, Updates, Releases, Reassigns, UngroupedFlows, Owner, Ref, GroupOf, Seeds;
    var plan := PlanOf(o, r.profile, r.plugins);
    var temp := TempIds(plan.creates, r.groupIds);
    if i >= |o.flows| {
      var s := plan.seeds[i - |o.flows|];
      SeedsGood(o.groups, r.plugins, InstalledFor(o, r.profile));
      assert SeedFrom(o.groups, r.plugins, s);
      var k :| 0 <= k < |r.plugins| && s.pluginId == r.plugins[k].id && s.groupRef == Ref(o.groups, r.plugins[k]);
      RefResolves(o, r, k);
    } else {
      MovedFlow(o, r, i);
    }
  }

  /** An old flow is left as it was or, ungrouped before, moved to the group of a plugin that owns it. */
  lemma MovedFlow(o: Org, r: Request, i: nat)
    requires Sound(o, r) && i < |o.flows|
    ensures var post := Reconciled(o, r); var f := post.flows[i];
      f == o.flows[i] ||
        (o.flows[i].groupId.None? && Owner(f).Some? && f.groupId.Some? &&
         GroupOf(post.groups, f.groupId.value, Owner(f).value))
  {
    hide FreshIds, Creates, Updates, Releases, Reassigns, UngroupedFlows, Ref, GroupOf, Seeds;
    var plan := PlanOf(o, r.profile, r.plugins);
    var temp := TempIds(plan.creates, r.groupIds);
    var f := o.flows[i];
    var g := AfterReassigns(f, plan.reassigns, temp);
    ReassignsKeepId(f, plan.reassigns, temp);
    if g != f {
      var x := LastReassign(f, plan.reassigns, temp);
      ReassignsAre(o.groups, UngroupedFlows(o.flows), r.plugins, x);
      var k :| 0 <= k < |r.plugins| && x.groupRef == Ref(o.groups, r.plugins[k]) &&
        Ungrouped(f.id, Some(r.plugins[k].id)) in UngroupedFlows(o.flows);
      UngroupedAre(o.flows, Ungrouped(f.id, Some(r.plugins[k].id)));
      RefResolves(o, r, k);
    }
  }

  lemma {:induction false} LastReassign(f: Flow, reassigns: seq<Reassign>, temp: map<string, string>)
    returns (x: Reassign)
    requires AfterReassigns(f, reassigns, temp) != f
    ensures x in reassigns && x.flowId == f.id
    ensures AfterReassigns(f, reassigns, temp).groupId == Some(Resolve(temp, x.groupRef))
  {
    var front := reassigns[..|reassigns| - 1];
    var last := reassigns[|reassigns| - 1];
    ReassignsKeepId(f, front, temp);
    if last.flowId == f.id {
      x := last;
    } else {
      x := LastReassign(f, front, temp);
    }
  }

  // ---- Keys over whole runs ----

  /** What happens to an organisation: a reconcile, or anything else its members do to groups and flows. */
  datatype Happening = Call(request: Request) | Edit(groups: seq<Group>, flows: seq<Flow>)

  ghost predicate CanHappen(o: Org, h: Happening) {
    match h
    case Call(r) => EnoughIds(o, r)
    case Edit(_, _) => true
  }

  function After(o: Org, h: Happening): Org
    requires CanHappen(o, h)
  {
    match h
    case Call(r) => Reconciled(o, r)
    case Edit(groups, flows) => Org(groups, flows, o.installed)
  }

  ghost predicate Runs(o: Org, hs: seq<Happening>)
    decreases |hs|
  {
    hs == [] || (CanHappen(o, hs[0]) && Runs(After(o, hs[0]), hs[1..]))
  }

  /** The keys seeded for one profile, in order. */
  function SeededFor(o: Org, hs: seq<Happening>, profile: string): seq<string>
    requires Runs(o, hs)
    decreases |hs|
  {
    if hs == [] then []
    else
      (if hs[0].Call? && hs[0].request.profile == Some(profile) then
         KeysOf(PlanOf(o, Some(profile), hs[0].request.plugins).seeds)
       else []) + SeededFor(After(o, hs[0]), hs[1..], profile)
  }

  ghost predicate Distinct(keys: seq<string>) {
    forall i, j :: 0 <= i < j < |keys| ==> keys[i] != keys[j]
  }

  lemma OneCallsKeys(o: Org, r: Request)
    requires EnoughIds(o, r)
    ensures var installed := InstalledFor(o, r.profile); var keys := KeysOf(PlanOf(o, r.profile, r.plugins).seeds);
      && Distinct(keys) && (forall k :: k in keys ==> k !in installed)
      && (r.profile.Some? ==> InstalledFor(Reconciled(o, r), r.profile) == installed + keys)
      && (forall other: string :: Some(other) != r.profile ==>
            InstalledFor(Reconciled(o, r), Some(other)) == InstalledFor(o, Some(other)))
  {
    SeedsGood(o.groups, r.plugins, InstalledFor(o, r.profile));
  }

  /** Over any run of calls that come one at a time, whatever members edit in between, no template key is
      seeded twice for one profile, nor one recorded for it before. */
  lemma {:induction false} NoKeySeededTwice(o: Org, hs: seq<Happening>, profile: string)
    requires Runs(o, hs)
    ensures Distinct(SeededFor(o, hs, profile))
    ensures forall k :: k in SeededFor(o, hs, profile) ==> k !in InstalledFor(o, Some(profile))
    decreases |hs|
  {
    hide EnoughIds, Reconciled, PlanOf, KeysOf, InstalledFor;
    if hs != [] {
      NoKeySeededTwice(After(o, hs[0]), hs[1..], profile);
      if hs[0].Call? {
        var r := hs[0].request;
        OneCallsKeys(o, r);
        DistinctConcat(KeysOf(PlanOf(o, r.profile, r.plugins).seeds), SeededFor(After(o, hs[0]), hs[1..], profile),
                       InstalledFor(o, r.profile), r.profile == Some(profile));
      } else {
        EditKeepsInstalled(o, hs[0], profile);
      }
    }
  }

  lemma DistinctConcat(keys: seq<string>, later: seq<string>, installed: seq<string>, same: bool)
    requires Distinct(keys) && Distinct(later)
    requires same ==> forall k :: k in later ==> k !in installed + keys
    ensures same ==> Distinct(keys + later)
    ensures [] + later == later
  {
    if same {
      forall j | 0 <= j < |later| ensures later[j] !in keys {
        assert later[j] !in installed + keys;
      }
    }
  }

  lemma EditKeepsInstalled(o: Org, h: Happening, profile: string)
    requires h.Edit?
    ensures InstalledFor(After(o, h), Some(profile)) == InstalledFor(o, Some(profile))
  {
  }

  lemma SeedsExactly(groups: seq<Group>, plugins: seq<Plugin>, installed: seq<string>, key: string)
    ensures key in KeysOf(Seeds(groups, plugins, installed)) <==> Offers(plugins, key) && key !in installed
  {
    var seeds := Seeds(groups, plugins, installed);
    SeedsGood(groups, plugins, installed);
    if key in KeysOf(seeds) {
      var i :| 0 <= i < |seeds| && KeysOf(seeds)[i] == key;
      SeedKeyIsATemplates(groups, plugins, seeds[i]);
    }
  }

  /** One call seeds exactly the keys its enabled plugins offer and the member has no record of. */
  lemma SeededExactly(o: Org, profile: Option<string>, plugins: seq<Plugin>, key: string)
    ensures key in KeysOf(PlanOf(o, profile, plugins).seeds) <==>
            Offers(plugins, key) && key !in InstalledFor(o, profile)
  {
    SeedsExactly(o.groups, plugins, InstalledFor(o, profile), key);
  }

  /** Two calls seed the same key into one organisation exactly when both offer it, neither member had
      it recorded, and the second caller is another member or the first could record nothing. */
  lemma SeededByBothExactly(o: Org, r: Request, s: Request, key: string)
    requires EnoughIds(o, r)
    ensures
      (key in KeysOf(PlanOf(o, r.profile, r.plugins).seeds) &&
       key in KeysOf(PlanOf(Reconciled(o, r), s.profile, s.plugins).seeds)) <==>
      (Offers(r.plugins, key) && Offers(s.plugins, key) &&
       key !in InstalledFor(o, r.profile) && key !in InstalledFor(o, s.profile) &&
       (r.profile.None? || s.profile != r.profile))
  {
    hide EnoughIds, Reconciled, PlanOf, KeysOf, Offers;
    SeededExactly(o, r.profile, r.plugins, key);
    SeededExactly(Reconciled(o, r), s.profile, s.plugins, key);
    OneCallsKeys(o, r);
    if s.profile.Some? && s.profile != r.profile {
      assert InstalledFor(Reconciled(o, r), Some(s.profile.value)) == InstalledFor(o, Some(s.profile.value));
    }
  }

  /** So the flows are not seeded once for the organisation: a second member doubles them. */
  lemma SecondMemberSeedsAgain() returns (o: Org, r: Request, s: Request, key: string)
    ensures EnoughIds(o, r) && r.plugins == s.plugins && r.profile.Some? && s.profile.Some?
    ensures key in KeysOf(PlanOf(o, r.profile, r.plugins).seeds)
    ensures key in KeysOf(PlanOf(Reconciled(o, r), s.profile, s.plugins).seeds)
  {
    var plugins := [Plugin("p", "P", true, [Template("t", "T", "")])];
    o := Org([], [], map[]);
    r := Request(Some("a"), plugins, ["g"], ["f"]);
    s := Request(Some("b"), plugins, [], []);
    key := Key("p", "t");
    assert plugins[0].templates[0].id == "t" && Offers(plugins, key);
    assert r.profile != s.profile;
    hide PlanOf, Reconciled, KeysOf, EnoughIds, Key, Offers;
    OnePluginNeeds(o, r);
    SeededByBothExactly(o, r, s, key);
  }

  lemma OnePluginNeeds(o: Org, r: Request)
    requires |r.plugins| == 1 && |r.plugins[0].templates| == 1 && |r.groupIds| >= 1 && |r.flowIds| >= 1
    ensures EnoughIds(o, r)
  {
    assert r.plugins[..0] == [];
    var p := r.plugins[0];
    var installed := InstalledFor(o, r.profile);
    assert |SeedTemplates([], p, Ref(o.groups, p), 0, installed)| == 0;
    assert |SeedTemplates([], p, Ref(o.groups, p), 1, installed)| <= 1;
    assert |Creates(o.groups, r.plugins)| <= 1;
    assert |Seeds(o.groups, r.plugins, installed)| <= 1;
  }
}
