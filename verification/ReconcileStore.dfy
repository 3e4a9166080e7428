/** Carrying out a reconcile plan on an organisation's groups and flows, and recording what was
    seeded for the member who asked (src/routes/api/flows/reconcile/+server.ts:30-97). */
module ReconcileStore {
  import opened Wrappers
  import opened ReconcilePlan

  datatype Source = Source(pluginId: string, templateId: string)
  datatype Flow = Flow(id: string, groupId: Option<string>, source: Option<Source>, name: string, content: string)

  /** installed: per profile, the template keys recorded in that member's preferences. */
  datatype Org = Org(groups: seq<Group>, flows: seq<Flow>, installed: map<string, seq<string>>)

  /** One call of the endpoint, with the random ids it draws. */
  datatype Request = Request(profile: Option<string>, plugins: seq<Plugin>, groupIds: seq<string>, flowIds: seq<string>)

  function Owner(f: Flow): Option<string> {
    if f.source.Some? && f.source.value.pluginId != "" then Some(f.source.value.pluginId) else None
  }

  function UngroupedFlows(flows: seq<Flow>): seq<Ungrouped> {
    if flows == [] then []
    else
      var f := flows[|flows| - 1];
      UngroupedFlows(flows[..|flows| - 1]) + if f.groupId.None? then [Ungrouped(f.id, Owner(f))] else []
  }

  function InstalledFor(o: Org, profile: Option<string>): seq<string> {
    if profile.Some? && profile.value in o.installed then o.installed[profile.value] else []
  }

  /** The plan for an organisation's rows and a record read earlier. */
  function PlanWith(o: Org, installedKeys: seq<string>, plugins: seq<Plugin>): Plan {
    PlanFor(o.groups, UngroupedFlows(o.flows), installedKeys, plugins)
  }

  function PlanOf(o: Org, profile: Option<string>, plugins: seq<Plugin>): Plan {
    PlanWith(o, InstalledFor(o, profile), plugins)
  }

  // ---- What each row becomes ----

  function TempIds(creates: seq<Create>, ids: seq<string>): map<string, string>
    requires |ids| >= |creates|
  {
    if creates == [] then map[]
    else
      var n := |creates| - 1;
      TempIds(creates[..n], ids)[creates[n].tempKey := ids[n]]
  }

  function Resolve(temp: map<string, string>, groupRef: string): string {
    if groupRef in temp then temp[groupRef] else groupRef
  }

  function NewGroup(c: Create, id: string): Group { Group(id, c.name, Some(c.pluginId), c.disabled) }

  function NewGroups(creates: seq<Create>, ids: seq<string>): (r: seq<Group>)
    requires |ids| >= |creates|
    ensures |r| == |creates| && forall i :: 0 <= i < |r| ==> r[i] == NewGroup(creates[i], ids[i])
  {
    seq(|creates|, i requires 0 <= i < |creates| => NewGroup(creates[i], ids[i]))
  }

  function UpdateOne(g: Group, u: Update): Group {
    if g.id == u.id then g.(name := u.name, disabled := u.disabled) else g
  }

  function AfterUpdates(g: Group, updates: seq<Update>): (r: Group)
    ensures r.id == g.id && r.pluginId == g.pluginId
  {
    if updates == [] then g
    else UpdateOne(AfterUpdates(g, updates[..|updates| - 1]), updates[|updates| - 1])
  }

  function AfterRelease(g: Group, releases: seq<string>): Group {
    if g.id in releases then g.(pluginId := None, disabled := false) else g
  }

  function FinalGroup(g: Group, plan: Plan): Group { AfterRelease(AfterUpdates(g, plan.updates), plan.releases) }

  function ReassignOne(f: Flow, r: Reassign, temp: map<string, string>): Flow {
    if f.id == r.flowId then f.(groupId := Some(Resolve(temp, r.groupRef))) else f
  }

  function AfterReassigns(f: Flow, reassigns: seq<Reassign>, temp: map<string, string>): Flow {
    if reassigns == [] then f
    else ReassignOne(AfterReassigns(f, reassigns[..|reassigns| - 1], temp), reassigns[|reassigns| - 1], temp)
  }

  function NewFlow(s: Seed, id: string, temp: map<string, string>): Flow {
    Flow(id, Some(Resolve(temp, s.groupRef)), Some(Source(s.pluginId, s.template.id)),
         s.template.name, s.template.content)
  }

  /** Every group as it ends up: the old ones in their places, then the new ones. */
  function GroupsAfter(groups: seq<Group>, plan: Plan, ids: seq<string>): (r: seq<Group>)
    requires |ids| >= |plan.creates|
    ensures |r| == |groups| + |plan.creates|
    ensures forall i :: 0 <= i < |r| ==> r[i] == FinalGroup((groups + NewGroups(plan.creates, ids))[i], plan)
  {
    var all := groups + NewGroups(plan.creates, ids);
    seq(|all|, i requires 0 <= i < |all| => FinalGroup(all[i], plan))
  }

  function FlowsAfter(flows: seq<Flow>, plan: Plan, groupIds: seq<string>, ids: seq<string>): (r: seq<Flow>)
    requires |groupIds| >= |plan.creates| && |ids| >= |plan.seeds|
    ensures |r| == |flows| + |plan.seeds|
    ensures var temp := TempIds(plan.creates, groupIds);
      forall i :: 0 <= i < |r| ==>
        r[i] == if i < |flows| then AfterReassigns(flows[i], plan.reassigns, temp)
                else NewFlow(plan.seeds[i - |flows|], ids[i - |flows|], temp)
  {
    var temp := TempIds(plan.creates, groupIds);
    seq(|flows|, i requires 0 <= i < |flows| => AfterReassigns(flows[i], plan.reassigns, temp)) +
    seq(|plan.seeds|, i requires 0 <= i < |plan.seeds| => NewFlow(plan.seeds[i], ids[i], temp))
  }

  predicate EnoughIds(o: Org, r: Request) {
    var plan := PlanOf(o, r.profile, r.plugins);
    |r.groupIds| >= |plan.creates| && |r.flowIds| >= |plan.seeds|
  }

  /** The transaction: the plan carried out on the organisation's rows. */
  function Transacted(o: Org, plan: Plan, groupIds: seq<string>, flowIds: seq<string>): Org
    requires |groupIds| >= |plan.creates| && |flowIds| >= |plan.seeds|
  {
    o.(groups := GroupsAfter(o.groups, plan, groupIds), flows := FlowsAfter(o.flows, plan, groupIds, flowIds))
  }

  /** The record written after the transaction: what was read before it and the keys it seeded. */
  function Recorded(o: Org, profile: Option<string>, installedKeys: seq<string>, plan: Plan): Org {
    if plan.keysToAdd != [] && profile.Some? then
      o.(installed := o.installed[profile.value := installedKeys + plan.keysToAdd])
    else o
  }

  /** A call no other call comes between. */
  function Reconciled(o: Org, r: Request): Org
    requires EnoughIds(o, r)
  {
    var plan := PlanOf(o, r.profile, r.plugins);
    Recorded(Transacted(o, plan, r.groupIds, r.flowIds), r.profile, InstalledFor(o, r.profile), plan)
  }

  // ---- The endpoint ----

  class OrgStore {
    var groups: seq<Group>
    var flows: seq<Flow>
    var installed: map<string, seq<string>>

    constructor (o: Org)
      ensures View() == o
    {
      groups, flows, installed := o.groups, o.flows, o.installed;
    }

    function View(): Org reads this { Org(groups, flows, installed) }

    method InsertGroups(creates: seq<Create>, ids: seq<string>) returns (temp: map<string, string>)
      requires |ids| >= |creates|
      modifies this`groups
      ensures groups == old(groups) + NewGroups(creates, ids)
      ensures temp == TempIds(creates, ids)
    {
      temp := map[];
      for i := 0 to |creates|
        invariant groups == old(groups) + NewGroups(creates, ids)[..i]
        invariant temp == TempIds(creates[..i], ids)
      {
        assert creates[..i + 1][..i] == creates[..i];
        temp := temp[creates[i].tempKey := ids[i]];
        groups := groups + [NewGroup(creates[i], ids[i])];
      }
      assert creates[..|creates|] == creates;
    }

    method UpdateGroups(updates: seq<Update>)
      modifies this`groups
      ensures |groups| == |old(groups)|
      ensures forall k :: 0 <= k < |groups| ==> groups[k] == AfterUpdates(old(groups)[k], updates)
    {
      for i := 0 to |updates|
        invariant |groups| == |old(groups)|
        invariant forall k :: 0 <= k < |groups| ==> groups[k] == AfterUpdates(old(groups)[k], updates[..i])
      {
        assert updates[..i + 1][..i] == updates[..i];
        groups := seq(|groups|, k requires 0 <= k < |groups| reads this => UpdateOne(groups[k], updates[i]));
      }
      assert updates[..|updates|] == updates;
    }

    method ReassignFlows(reassigns: seq<Reassign>, temp: map<string, string>)
      modifies this`flows
      ensures |flows| == |old(flows)|
      ensures forall k :: 0 <= k < |flows| ==> flows[k] == AfterReassigns(old(flows)[k], reassigns, temp)
    {
      for i := 0 to |reassigns|
        invariant |flows| == |old(flows)|
        invariant forall k :: 0 <= k < |flows| ==> flows[k] == AfterReassigns(old(flows)[k], reassigns[..i], temp)
      {
        assert reassigns[..i + 1][..i] == reassigns[..i];
        flows := seq(|flows|, k requires 0 <= k < |flows| reads this => ReassignOne(flows[k], reassigns[i], temp));
      }
      assert reassigns[..|reassigns|] == reassigns;
    }

    method InsertFlows(seeds: seq<Seed>, ids: seq<string>, temp: map<string, string>)
      requires |ids| >= |seeds|
      modifies this`flows
      ensures |flows| == |old(flows)| + |seeds|
      ensures forall k :: 0 <= k < |flows| ==>
        flows[k] == if k < |old(flows)| then old(flows)[k]
                    else NewFlow(seeds[k - |old(flows)|], ids[k - |old(flows)|], temp)
    {
      for i := 0 to |seeds|
        invariant |flows| == |old(flows)| + i
        invariant forall k :: 0 <= k < |flows| ==>
          flows[k] == if k < |old(flows)| then old(flows)[k]
                      else NewFlow(seeds[k - |old(flows)|], ids[k - |old(flows)|], temp)
      {
        flows := flows + [NewFlow(seeds[i], ids[i], temp)];
      }
    }

    method ReleaseGroups(releases: seq<string>)
      modifies this`groups
      ensures |groups| == |old(groups)|
      ensures forall k :: 0 <= k < |groups| ==> groups[k] == AfterRelease(old(groups)[k], releases)
    {
      for i := 0 to |releases|
        invariant |groups| == |old(groups)|
        invariant forall k :: 0 <= k < |groups| ==> groups[k] == AfterRelease(old(groups)[k], releases[..i])
      {
        assert releases[..i + 1] == releases[..i] + [releases[i]];
        groups := seq(|groups|, k requires 0 <= k < |groups| reads this => AfterRelease(groups[k], [releases[i]]));
      }
      assert releases[..|releases|] == releases;
    }

    method ListUngrouped() returns (r: seq<Ungrouped>)
      ensures r == UngroupedFlows(flows)
    {
      r := [];
      for i := 0 to |flows|
        invariant r == UngroupedFlows(flows[..i])
      {
        assert flows[..i + 1][..i] == flows[..i];
        if flows[i].groupId.None? {
          r := r + [Ungrouped(flows[i].id, Owner(flows[i]))];
        }
      }
      assert flows[..|flows|] == flows;
    }

    method Execute(plan: Plan, groupIds: seq<string>, flowIds: seq<string>)
      requires |groupIds| >= |plan.creates| && |flowIds| >= |plan.seeds|
      modifies this`groups, this`flows
      ensures groups == GroupsAfter(old(groups), plan, groupIds)
      ensures flows == FlowsAfter(old(flows), plan, groupIds, flowIds)
    {
      var temp := InsertGroups(plan.creates, groupIds);
      UpdateGroups(plan.updates);
      ReassignFlows(plan.reassigns, temp);
      InsertFlows(plan.seeds, flowIds, temp);
      ReleaseGroups(plan.releases);
    }

    method ReadRecord(profile: Option<string>) returns (installedKeys: seq<string>)
      ensures installedKeys == InstalledFor(View(), profile)
    {
      installedKeys := [];
      if profile.Some? && profile.value in installed {
        installedKeys := installed[profile.value];
      }
    }

    method Transact(installedKeys: seq<string>, plugins: seq<Plugin>, groupIds: seq<string>, flowIds: seq<string>)
      returns (plan: Plan)
      requires var p := PlanWith(View(), installedKeys, plugins);
        |groupIds| >= |p.creates| && |flowIds| >= |p.seeds|
      modifies this`groups, this`flows
      ensures plan == PlanWith(old(View()), installedKeys, plugins)
      ensures View() == Transacted(old(View()), plan, groupIds, flowIds)
    {
      var ungrouped := ListUngrouped();
      plan := PlanReconcile(groups, ungrouped, installedKeys, plugins);
      Execute(plan, groupIds, flowIds);
    }

    method SaveRecord(profile: Option<string>, installedKeys: seq<string>, plan: Plan)
      modifies this`installed
      ensures View() == Recorded(old(View()), profile, installedKeys, plan)
    {
      if |plan.keysToAdd| > 0 && profile.Some? {
        installed := installed[profile.value := installedKeys + plan.keysToAdd];
      }
    }

    method Reconcile(r: Request)
      requires EnoughIds(View(), r)
      modifies this
      ensures View() == Reconciled(old(View()), r)
    {
      var installedKeys := ReadRecord(r.profile);
      var plan := Transact(installedKeys, r.plugins, r.groupIds, r.flowIds);
      SaveRecord(r.profile, installedKeys, plan);
    }
  }
}
