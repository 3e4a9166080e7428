/** Reconcile calls that overlap: a call reads its member's record, reads the organisation's rows in a
    transaction, writes them and commits, and writes the record back, and other calls come between any two
    of these steps (src/routes/api/flows/reconcile/+server.ts:30-97). */
module ReconcileOverlap {
  import opened Wrappers
  import opened ReconcilePlan
  import opened ReconcileStore
  import opened ReconcileTheorems

  datatype Tables = Tables(groups: seq<Group>, flows: seq<Flow>)

  /** How far a call is: its record read, its rows read too, or its transaction committed. */
  datatype Phase = Begun | Planned(seen: Tables) | Committed(seen: Tables)

  datatype Underway = Underway(tenant: string, profile: Option<string>, plugins: seq<Plugin>, read: seq<string>,
                               phase: Phase)
  {
    /** The plan of a call that has read its rows. */
    function Plan(): Plan
      requires !phase.Begun?
    {
      PlanFor(phase.seen.groups, UngroupedFlows(phase.seen.flows), read, plugins)
    }
  }

  /** Rows are kept per organisation, records per profile. */
  datatype State = State(tables: map<string, Tables>, records: map<string, seq<string>>, calls: map<nat, Underway>)

  datatype Step =
    | Begin(id: nat, tenant: string, profile: Option<string>, plugins: seq<Plugin>)
    | Look(id: nat)                     // the transaction reads the organisation's groups and flows
    | Commit(id: nat, groupIds: seq<string>, flowIds: seq<string>)
    | Save(id: nat)
    | Fail(id: nat)                     // an error before or after the transaction, or one that rolls it back
    | Edit(tenant: string, rows: Tables)

  function RowsNow(s: State, tenant: string): Tables {
    if tenant in s.tables then s.tables[tenant] else Tables([], [])
  }

  /** An organisation's rows with the records as they are. */
  function OrgNow(s: State, tenant: string): Org {
    Org(RowsNow(s, tenant).groups, RowsNow(s, tenant).flows, s.records)
  }

  predicate Enabled(s: State, step: Step) {
    match step
    case Begin(id, _, _, _) => id !in s.calls
    case Look(id) => id in s.calls && s.calls[id].phase.Begun?
    case Commit(id, groupIds, flowIds) =>
      id in s.calls && s.calls[id].phase.Planned? &&
      |groupIds| >= |s.calls[id].Plan().creates| && |flowIds| >= |s.calls[id].Plan().seeds|
    case Save(id) => id in s.calls && s.calls[id].phase.Committed?
    case Fail(id) => id in s.calls
    case Edit(_, _) => true
  }

  function Next(s: State, step: Step): State
    requires Enabled(s, step)
  {
    match step
    case Begin(id, tenant, profile, plugins) =>
      var read := InstalledFor(OrgNow(s, tenant), profile);
      s.(calls := s.calls[id := Underway(tenant, profile, plugins, read, Begun)])
    case Look(id) =>
      var c := s.calls[id];
      s.(calls := s.calls[id := c.(phase := Planned(RowsNow(s, c.tenant)))])
    case Commit(id, groupIds, flowIds) =>
      var c := s.calls[id];
      var o := Transacted(OrgNow(s, c.tenant), c.Plan(), groupIds, flowIds);
      s.(tables := s.tables[c.tenant := Tables(o.groups, o.flows)],
         calls := s.calls[id := c.(phase := Committed(c.phase.seen))])
    case Save(id) =>
      var c := s.calls[id];
      s.(records := Recorded(OrgNow(s, c.tenant), c.profile, c.read, c.Plan()).installed, calls := s.calls - {id})
    case Fail(id) => s.(calls := s.calls - {id})
    case Edit(tenant, rows) => s.(tables := s.tables[tenant := rows])
  }

  /** The step is a transaction that seeds the key for the profile. */
  predicate SeedsNow(s: State, step: Step, profile: string, key: string)
    requires Enabled(s, step)
  {
    step.Commit? && s.calls[step.id].profile == Some(profile) && key in KeysOf(s.calls[step.id].Plan().seeds)
  }

  /** Some of the steps, taken from s, seeds the key for the profile. */
  ghost predicate SeedsAlong(s: State, steps: seq<Step>, profile: string, key: string)
    decreases |steps|
  {
    steps != [] && Enabled(s, steps[0]) &&
    (SeedsNow(s, steps[0], profile, key) || SeedsAlong(Next(s, steps[0]), steps[1..], profile, key))
  }

  ghost predicate CanSeed(s: State, profile: string, key: string) {
    exists steps :: SeedsAlong(s, steps, profile, key)
  }

  // ---- When a key can no longer be seeded ----

  /** The record the call read lacks nothing that its plugins offer. */
  ghost predicate NothingNew(c: Underway) {
    forall k :: Offers(c.plugins, k) ==> k in c.read
  }

  /** The call neither seeds the key any more nor writes a record without it. */
  ghost predicate Harmless(c: Underway, profile: string, key: string) {
    c.profile == Some(profile) ==>
      key in c.read || NothingNew(c) || (c.phase.Committed? && Offers(c.plugins, key))
  }

  predicate RecordHas(s: State, profile: string, key: string) {
    profile in s.records && key in s.records[profile]
  }

  /** The key is on record, and no call under way can seed it or take it off. */
  ghost predicate Settled(s: State, profile: string, key: string) {
    RecordHas(s, profile, key) && forall id :: id in s.calls ==> Harmless(s.calls[id], profile, key)
  }

  /** A plan seeds what its plugins offer and the record it was given lacks. */
  lemma PlanSeedsExactly(c: Underway)
    requires !c.phase.Begun?
    ensures c.Plan().keysToAdd == KeysOf(c.Plan().seeds)
    ensures forall k :: k in c.Plan().keysToAdd <==> Offers(c.plugins, k) && k !in c.read
    ensures c.Plan().keysToAdd == [] <==> NothingNew(c)
  {
    forall k ensures k in c.Plan().keysToAdd <==> Offers(c.plugins, k) && k !in c.read {
      SeedsExactly(c.phase.seen.groups, c.plugins, c.read, k);
    }
    if c.Plan().keysToAdd != [] {
      assert c.Plan().keysToAdd[0] in c.Plan().keysToAdd;
    }
  }

  lemma SettledStays(s: State, step: Step, profile: string, key: string)
    requires Settled(s, profile, key) && Enabled(s, step)
    ensures !SeedsNow(s, step, profile, key) && Settled(Next(s, step), profile, key)
  {
    hide Offers, KeysOf, Seeds, Creates, Updates, Releases, Reassigns;
    if step.Commit? || step.Save? {
      PlanSeedsExactly(s.calls[step.id]);
      assert Harmless(s.calls[step.id], profile, key);
    }
    if step.Look? {
      assert Harmless(s.calls[step.id], profile, key);
    }
  }

  lemma {:induction false} SettledForGood(s: State, steps: seq<Step>, profile: string, key: string)
    requires Settled(s, profile, key)
    ensures !SeedsAlong(s, steps, profile, key)
    decreases |steps|
  {
    hide Settled, SeedsNow;
    if steps != [] && Enabled(s, steps[0]) {
      SettledStays(s, steps[0], profile, key);
      SettledForGood(Next(s, steps[0]), steps[1..], profile, key);
    }
  }

  // ---- When it still can ----

  lemma Later(s: State, step: Step, profile: string, key: string)
    requires Enabled(s, step) && CanSeed(Next(s, step), profile, key)
    ensures CanSeed(s, profile, key)
  {
    hide SeedsNow;
    var steps :| SeedsAlong(Next(s, step), steps, profile, key);
    assert ([step] + steps)[1..] == steps;
    assert SeedsAlong(s, [step] + steps, profile, key);
  }

  /** The transaction of call id commits, with as many new ids as it needs. */
  function Committing(s: State, id: nat): (step: Step)
    requires id in s.calls && s.calls[id].phase.Planned?
    ensures Enabled(s, step) && step.Commit? && step.id == id
  {
    var plan := s.calls[id].Plan();
    Commit(id, seq(|plan.creates|, _ => ""), seq(|plan.seeds|, _ => ""))
  }

  lemma PlannedSeeds(s: State, id: nat, profile: string, key: string)
    requires id in s.calls && s.calls[id].phase.Planned? && s.calls[id].profile == Some(profile)
    requires Offers(s.calls[id].plugins, key) && key !in s.calls[id].read
    ensures CanSeed(s, profile, key)
  {
    var step := Committing(s, id);
    PlanSeedsExactly(s.calls[id]);
    assert SeedsNow(s, step, profile, key);
    assert SeedsAlong(s, [step], profile, key);
  }

  lemma UnusedId(calls: map<nat, Underway>) returns (id: nat)
    ensures id !in calls
  {
    var rest := calls.Keys;
    id := 0;
    while rest != {}
      invariant rest <= calls.Keys && forall k: nat :: k in calls ==> k in rest || k < id
    {
      var k :| k in rest;
      id := if k < id then id else k + 1;
      rest := rest - {k};
    }
  }

  /** With the key off record, a call that offers it seeds it. */
  lemma UnrecordedCanSeed(s: State, profile: string, pluginId: string, templateId: string)
    requires !RecordHas(s, profile, Key(pluginId, templateId))
    ensures CanSeed(s, profile, Key(pluginId, templateId))
  {
    var key := Key(pluginId, templateId);
    var id := UnusedId(s.calls);
    var plugins := [Plugin(pluginId, "", true, [Template(templateId, "", "")])];
    var step := Begin(id, "", Some(profile), plugins);
    assert plugins[0].templates[0].id == templateId && Offers(plugins, key);
    hide Offers, CanSeed;
    var t := Next(s, step);
    PlannedSeeds(Next(t, Look(id)), id, profile, key);
    Later(t, Look(id), profile, key);
    Later(s, step, profile, key);
  }

  /** A committed call whose record lacks the key takes it off when it writes. */
  lemma SaveUnrecords(s: State, id: nat, profile: string, pluginId: string, templateId: string)
    requires Enabled(s, Save(id)) && !Harmless(s.calls[id], profile, Key(pluginId, templateId))
    ensures CanSeed(s, profile, Key(pluginId, templateId))
  {
    hide Offers, CanSeed, Key;
    PlanSeedsExactly(s.calls[id]);
    UnrecordedCanSeed(Next(s, Save(id)), profile, pluginId, templateId);
    Later(s, Save(id), profile, Key(pluginId, templateId));
  }

  /** A planned call that read no record of the key seeds it, or something else, and then takes it off. */
  lemma PlannedCanSeed(s: State, id: nat, profile: string, pluginId: string, templateId: string)
    requires id in s.calls && s.calls[id].phase.Planned? && !Harmless(s.calls[id], profile, Key(pluginId, templateId))
    ensures CanSeed(s, profile, Key(pluginId, templateId))
  {
    hide Key, Offers, CanSeed;
    var key, c := Key(pluginId, templateId), s.calls[id];
    if Offers(c.plugins, key) {
      PlannedSeeds(s, id, profile, key);
    } else {
      var t := Next(s, Committing(s, id));
      assert t.calls[id] == c.(phase := Committed(c.phase.seen));
      SaveUnrecords(t, id, profile, pluginId, templateId);
      Later(s, Committing(s, id), profile, key);
    }
  }

  lemma UnsettlingCanSeed(s: State, id: nat, profile: string, pluginId: string, templateId: string)
    requires id in s.calls && !Harmless(s.calls[id], profile, Key(pluginId, templateId))
    ensures CanSeed(s, profile, Key(pluginId, templateId))
  {
    hide Key, Offers, CanSeed;
    if s.calls[id].phase.Committed? {
      SaveUnrecords(s, id, profile, pluginId, templateId);
    } else if s.calls[id].phase.Planned? {
      PlannedCanSeed(s, id, profile, pluginId, templateId);
    } else {
      PlannedCanSeed(Next(s, Look(id)), id, profile, pluginId, templateId);
      Later(s, Look(id), profile, Key(pluginId, templateId));
    }
  }

  /**
   * A template's key can be seeded for a profile, for the first time or once more, exactly unless it is
   * settled: on the profile's record, with no call under way that read a record without it and will
   * seed it or write that record back.
   */
  lemma CanSeedExactly(s: State, profile: string, pluginId: string, templateId: string)
    ensures CanSeed(s, profile, Key(pluginId, templateId)) <==> !Settled(s, profile, Key(pluginId, templateId))
  {
    hide Key, Harmless, SeedsAlong;
    var key := Key(pluginId, templateId);
    if !RecordHas(s, profile, key) {
      UnrecordedCanSeed(s, profile, pluginId, templateId);
    } else if id :| id in s.calls && !Harmless(s.calls[id], profile, key) {
      UnsettlingCanSeed(s, id, profile, pluginId, templateId);
    } else if CanSeed(s, profile, key) {
      var steps :| SeedsAlong(s, steps, profile, key);
      SettledForGood(s, steps, profile, key);
      assert false;
    }
  }

  // ---- Calls alone and calls that overlap ----

  predicate StepsTo(s: State, step: Step, t: State) { Enabled(s, step) && t == Next(s, step) }

  /** A call nothing comes between is the one `ReconcileStore` carries out. */
  lemma AloneIsReconciled(s: State, id: nat, tenant: string, r: Request)
    returns (begun: State, planned: State, committed: State, saved: State)
    requires id !in s.calls && EnoughIds(OrgNow(s, tenant), r)
    ensures StepsTo(s, Begin(id, tenant, r.profile, r.plugins), begun) && StepsTo(begun, Look(id), planned)
    ensures StepsTo(planned, Commit(id, r.groupIds, r.flowIds), committed) && StepsTo(committed, Save(id), saved)
    ensures OrgNow(saved, tenant) == Reconciled(OrgNow(s, tenant), r)
  {
    hide PlanFor, GroupsAfter, FlowsAfter;
    begun := Next(s, Begin(id, tenant, r.profile, r.plugins));
    planned := Next(begun, Look(id));
    committed := Next(planned, Commit(id, r.groupIds, r.flowIds));
    saved := Next(committed, Save(id));
  }

  /** Two calls of one member whose transactions are both under way seed a key twice exactly when both
      offer it and neither read it. */
  lemma OverlappingCallsSeedTwiceExactly(s: State, i: nat, j: nat, profile: string, key: string)
    requires i != j && i in s.calls && j in s.calls
    requires s.calls[i].profile == s.calls[j].profile == Some(profile)
    requires s.calls[i].phase.Planned? && s.calls[j].phase.Planned?
    ensures var t := Next(s, Committing(s, i));
      SeedsNow(s, Committing(s, i), profile, key) && SeedsNow(t, Committing(t, j), profile, key) <==>
      (Offers(s.calls[i].plugins, key) && key !in s.calls[i].read &&
       Offers(s.calls[j].plugins, key) && key !in s.calls[j].read)
  {
    hide KeysOf, Offers, OrgNow;
    PlanSeedsExactly(s.calls[i]);
    PlanSeedsExactly(s.calls[j]);
  }

  /** A call that saves settles a key it seeded for good, exactly when every other call under way is
      harmless; so it does when its member has no other. */
  lemma SaveSettlesExactly(s: State, id: nat, profile: string, pluginId: string, templateId: string)
    requires Enabled(s, Save(id)) && s.calls[id].profile == Some(profile)
    requires Key(pluginId, templateId) in s.calls[id].Plan().keysToAdd
    ensures CanSeed(Next(s, Save(id)), profile, Key(pluginId, templateId)) <==>
      exists j :: j in s.calls && j != id && !Harmless(s.calls[j], profile, Key(pluginId, templateId))
  {
    PlanSeedsExactly(s.calls[id]);
    hide Key, Harmless, PlanFor;
    var t := Next(s, Save(id));
    CanSeedExactly(t, profile, pluginId, templateId);
    assert RecordHas(t, profile, Key(pluginId, templateId));
    assert forall j :: j in t.calls ==> j in s.calls && j != id && t.calls[j] == s.calls[j];
    assert forall j :: j in s.calls && j != id ==> j in t.calls;
  }
}
