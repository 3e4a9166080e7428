/** How many groups of an organisation come to own one plugin, when transactions read their rows before
    others write theirs (src/routes/api/flows/reconcile/+server.ts:39-93). */
module ReconcileOwners {
  import opened Wrappers
  import opened ReconcilePlan
  import opened ReconcileStore
  import opened ReconcileProofs
  import opened ReconcileConvergence
  import opened ReconcileOverlap

  /** How many groups own the plugin. */
  function Owners(groups: seq<Group>, pluginId: string): nat {
    Staying(groups, pluginId, [])
  }

  /** How many of them are not released. */
  function Staying(groups: seq<Group>, pluginId: string, releases: seq<string>): nat {
    if groups == [] then 0
    else
      var g := groups[|groups| - 1];
      Staying(groups[..|groups| - 1], pluginId, releases) +
      if g.pluginId == Some(pluginId) && g.id !in releases then 1 else 0
  }

  /** How often the plugin is listed. */
  function Listings(plugins: seq<Plugin>, pluginId: string): nat {
    if plugins == [] then 0
    else
      Listings(plugins[..|plugins| - 1], pluginId) + if plugins[|plugins| - 1].id == pluginId then 1 else 0
  }

  lemma {:induction false} StayingConcat(a: seq<Group>, b: seq<Group>, pluginId: string, releases: seq<string>)
    ensures Staying(a + b, pluginId, releases) == Staying(a, pluginId, releases) + Staying(b, pluginId, releases)
  {
    if b == [] {
      assert a + b == a;
    } else {
      assert (a + b)[..|a + b| - 1] == a + b[..|b| - 1];
      StayingConcat(a, b[..|b| - 1], pluginId, releases);
    }
  }

  /** Updates and releases: whoever is not released goes on owning what it owned. */
  lemma {:induction false} OwnersOfFinal(groups: seq<Group>, plan: Plan, pluginId: string, final: seq<Group>)
    requires |final| == |groups| && forall i :: 0 <= i < |groups| ==> final[i] == FinalGroup(groups[i], plan)
    ensures Owners(final, pluginId) == Staying(groups, pluginId, plan.releases)
  {
    if groups != [] {
      var n := |groups| - 1;
      OwnersOfFinal(groups[..n], plan, pluginId, final[..n]);
    }
  }

  lemma OneMoreCreated(front: seq<Create>, c: Create, ids: seq<string>, pluginId: string, releases: seq<string>)
    requires |ids| > |front| && ids[|front|] !in releases
    ensures Staying(NewGroups(front + [c], ids), pluginId, releases) ==
            Staying(NewGroups(front, ids), pluginId, releases) + if c.pluginId == pluginId then 1 else 0
  {
    var all := NewGroups(front + [c], ids);
    assert all[..|front|] == NewGroups(front, ids);
    assert all[|front|] == NewGroup(c, ids[|front|]);
  }

  /** The groups created for the plugin: one for each time it is listed, if none was seen. */
  lemma {:induction false} OwnersOfCreated(groups: seq<Group>, plugins: seq<Plugin>, ids: seq<string>,
                                           pluginId: string, releases: seq<string>)
    requires |ids| >= |Creates(groups, plugins)|
    requires forall id :: id in ids ==> id !in releases
    ensures Staying(NewGroups(Creates(groups, plugins), ids), pluginId, releases) ==
            if Find(groups, pluginId).None? then Listings(plugins, pluginId) else 0
  {
    if plugins != [] {
      hide Find, Staying, NewGroups;
      var p := plugins[|plugins| - 1];
      var front := Creates(groups, plugins[..|plugins| - 1]);
      OwnersOfCreated(groups, plugins[..|plugins| - 1], ids, pluginId, releases);
      if Find(groups, p.id).None? {
        OneMoreCreated(front, Create(TempKey(p.id), p.displayName, p.id, !p.enabled), ids, pluginId, releases);
      } else {
        assert Creates(groups, plugins) == front;
      }
    } else {
      assert NewGroups([], ids) == [];
    }
  }

  ghost predicate SomeOwner(groups: seq<Group>, pluginId: string) {
    exists i :: 0 <= i < |groups| && groups[i].pluginId == Some(pluginId)
  }

  lemma {:induction false} OwnersPositive(groups: seq<Group>, pluginId: string)
    ensures Owners(groups, pluginId) > 0 <==> SomeOwner(groups, pluginId)
  {
    if groups != [] {
      var front, last := groups[..|groups| - 1], groups[|groups| - 1];
      OwnersPositive(front, pluginId);
      assert forall i :: 0 <= i < |front| ==> front[i] == groups[i];
      if i :| 0 <= i < |groups| && groups[i].pluginId == Some(pluginId) {
        assert i < |front| ==> front[i].pluginId == Some(pluginId);
      }
    }
  }

  lemma NobodyOwns(groups: seq<Group>, pluginId: string)
    ensures Owners(groups, pluginId) == 0 <==> Find(groups, pluginId).None?
  {
    hide Find, Staying;
    OwnersPositive(groups, pluginId);
    FindLaws(groups, pluginId);
  }

  /** The new group ids are none of those the plan releases. */
  predicate NewIds(c: Underway, groupIds: seq<string>)
    requires !c.phase.Begun?
  {
    forall id <- groupIds :: id !in c.Plan().releases
  }

  /** A transaction that commits: the plugin's owners are those there now that it does not release, and
      one more for each time the plugin is listed, if it saw no owner when it read its rows. */
  lemma OwnersAfterCommit(s: State, id: nat, groupIds: seq<string>, flowIds: seq<string>, pluginId: string)
    requires Enabled(s, Commit(id, groupIds, flowIds)) && NewIds(s.calls[id], groupIds)
    ensures var c := s.calls[id]; var t := Next(s, Commit(id, groupIds, flowIds));
      Owners(RowsNow(t, c.tenant).groups, pluginId) ==
        Staying(RowsNow(s, c.tenant).groups, pluginId, c.Plan().releases) +
        if Owners(c.phase.seen.groups, pluginId) == 0 then Listings(c.plugins, pluginId) else 0
  {
    hide Staying, Listings, Find, Seeds, Updates, Releases, Reassigns, UngroupedFlows, FlowsAfter;
    var c := s.calls[id];
    var plan, now := c.Plan(), RowsNow(s, c.tenant).groups;
    var created := NewGroups(plan.creates, groupIds);
    OwnersOfFinal(now + created, plan, pluginId, GroupsAfter(now, plan, groupIds));
    StayingConcat(now, created, pluginId, plan.releases);
    OwnersOfCreated(c.phase.seen.groups, c.plugins, groupIds, pluginId, plan.releases);
    NobodyOwns(c.phase.seen.groups, pluginId);
  }

  /** A commit gives a plugin with at most one group a second one, exactly when it saw none and either
      finds one there now that it does not release, or lists the plugin more than once. */
  lemma SecondOwnerExactly(s: State, id: nat, groupIds: seq<string>, flowIds: seq<string>, pluginId: string)
    requires Enabled(s, Commit(id, groupIds, flowIds)) && NewIds(s.calls[id], groupIds)
    requires Owners(RowsNow(s, s.calls[id].tenant).groups, pluginId) <= 1
    ensures var c := s.calls[id]; var now := RowsNow(s, c.tenant).groups;
      Owners(RowsNow(Next(s, Commit(id, groupIds, flowIds)), c.tenant).groups, pluginId) >= 2 <==>
      Owners(c.phase.seen.groups, pluginId) == 0 && Listings(c.plugins, pluginId) >= 1 &&
      (Staying(now, pluginId, c.Plan().releases) == 1 || Listings(c.plugins, pluginId) >= 2)
  {
    hide Staying, Listings, Next, NewIds;
    OwnersAfterCommit(s, id, groupIds, flowIds, pluginId);
    NoMoreStay(RowsNow(s, s.calls[id].tenant).groups, pluginId, s.calls[id].Plan().releases);
  }

  lemma {:induction false} NoMoreStay(groups: seq<Group>, pluginId: string, releases: seq<string>)
    ensures Staying(groups, pluginId, releases) <= Owners(groups, pluginId)
  {
    if groups != [] {
      NoMoreStay(groups[..|groups| - 1], pluginId, releases);
    }
  }

  lemma {:induction false} AllStay(groups: seq<Group>, pluginId: string, releases: seq<string>)
    requires forall i :: 0 <= i < |groups| && groups[i].pluginId == Some(pluginId) ==> groups[i].id !in releases
    ensures Staying(groups, pluginId, releases) == Owners(groups, pluginId)
  {
    if groups != [] {
      AllStay(groups[..|groups| - 1], pluginId, releases);
    }
  }

  /** Where nobody owned the plugin before, whoever owns it after a commit has a new id. */
  lemma OwnersAreNew(groups: seq<Group>, plan: Plan, ids: seq<string>, pluginId: string, i: nat)
    requires |ids| >= |plan.creates| && !SomeOwner(groups, pluginId)
    requires i < |groups| + |plan.creates| && GroupsAfter(groups, plan, ids)[i].pluginId == Some(pluginId)
    ensures GroupsAfter(groups, plan, ids)[i].id in ids
  {
    var all := groups + NewGroups(plan.creates, ids);
    assert GroupsAfter(groups, plan, ids)[i] == FinalGroup(all[i], plan);
    assert all[i].pluginId == Some(pluginId);
    assert forall k :: 0 <= k < |groups| ==> groups[k].pluginId != Some(pluginId);
  }

  /** Two calls of one organisation whose transactions are both under way, each listing a plugin once that
      has no group now: it ends up with two exactly when neither saw one. */
  lemma OverlappingCallsOwnTwiceExactly(s: State, i: nat, j: nat, pluginId: string, gi: seq<string>, fi: seq<string>,
                                        gj: seq<string>, fj: seq<string>)
    requires i != j && Enabled(s, Commit(i, gi, fi)) && Enabled(s, Commit(j, gj, fj))
    requires s.calls[i].tenant == s.calls[j].tenant
    requires NewIds(s.calls[i], gi) && NewIds(s.calls[j], gj) && NewIds(s.calls[j], gi)
    requires Owners(RowsNow(s, s.calls[i].tenant).groups, pluginId) == 0
    requires Listings(s.calls[i].plugins, pluginId) == Listings(s.calls[j].plugins, pluginId) == 1
    ensures var t := Next(s, Commit(i, gi, fi));
      && Enabled(t, Commit(j, gj, fj))
      && (Owners(RowsNow(Next(t, Commit(j, gj, fj)), s.calls[i].tenant).groups, pluginId) >= 2 <==>
          Owners(s.calls[i].phase.seen.groups, pluginId) == 0 && Owners(s.calls[j].phase.seen.groups, pluginId) == 0)
  {
    hide Staying, Listings, Find, Seeds, Updates, Releases, Reassigns, UngroupedFlows, FlowsAfter, GroupsAfter, Creates;
    var t := Next(s, Commit(i, gi, fi));
    OwnersAfterCommit(s, i, gi, fi, pluginId);
    OwnersAfterCommit(t, j, gj, fj, pluginId);
    var now, groups := RowsNow(s, s.calls[i].tenant).groups, RowsNow(t, s.calls[i].tenant).groups;
    OwnersPositive(now, pluginId);
    NoMoreStay(now, pluginId, s.calls[i].Plan().releases);
    forall k | 0 <= k < |groups| && groups[k].pluginId == Some(pluginId)
      ensures groups[k].id !in s.calls[j].Plan().releases
    {
      OwnersAreNew(now, s.calls[i].Plan(), gi, pluginId, k);
    }
    AllStay(groups, pluginId, s.calls[j].Plan().releases);
  }

  /** A transaction nothing comes between keeps the groups of a plugin it lists, and creates some only
      when there was none. */
  lemma AloneKeepsOwners(s: State, id: nat, groupIds: seq<string>, flowIds: seq<string>, pluginId: string)
    requires Enabled(s, Look(id)) && Enabled(Next(s, Look(id)), Commit(id, groupIds, flowIds))
    requires NewIds(Next(s, Look(id)).calls[id], groupIds)
    requires DistinctGroupIds(RowsNow(s, s.calls[id].tenant).groups) && Listings(s.calls[id].plugins, pluginId) > 0
    ensures var c := s.calls[id]; var before := Owners(RowsNow(s, c.tenant).groups, pluginId);
      Owners(RowsNow(Next(Next(s, Look(id)), Commit(id, groupIds, flowIds)), c.tenant).groups, pluginId) ==
        if before > 0 then before else Listings(c.plugins, pluginId)
  {
    hide Listings, Find, Seeds, Updates, Releases, Reassigns, UngroupedFlows, FlowsAfter, GroupsAfter, Creates, Staying;
    var groups, plugins := RowsNow(s, s.calls[id].tenant).groups, s.calls[id].plugins;
    var t := Next(s, Look(id));
    OwnersAfterCommit(t, id, groupIds, flowIds, pluginId);
    assert t.calls[id].Plan().releases == Releases(groups, plugins) && RowsNow(t, t.calls[id].tenant).groups == groups;
    var k := ListedAt(plugins, pluginId);
    forall i | 0 <= i < |groups| && groups[i].pluginId == Some(pluginId)
      ensures groups[i].id !in Releases(groups, plugins)
    {
      ReleasesAre(groups, plugins, groups[i].id);
      ListedIsNotOrphaned(groups[i], plugins, k);
    }
    AllStay(groups, pluginId, Releases(groups, plugins));
  }

  lemma {:induction false} ListedAt(plugins: seq<Plugin>, pluginId: string) returns (k: nat)
    requires Listings(plugins, pluginId) > 0
    ensures k < |plugins| && plugins[k].id == pluginId
  {
    k := |plugins| - 1;
    if plugins[k].id != pluginId {
      k := ListedAt(plugins[..k], pluginId);
    }
  }
}
