/** Reference-counted realtime channels, one per organisation (src/lib/realtime/org-events.ts). */
module OrgEvents {
  import opened Wrappers

  type EntryId = nat
  type SetId = nat
  type Handler = nat

  datatype Entry = Entry(org: string, handlers: map<string, SetId>, statusHandlers: set<Handler>, closed: bool)

  /** Handler sets are objects: an entry's map and the closures of its subscriptions share them. The
      entry and event a set was made for are on record here, and steer nothing. */
  datatype HandlerSet = HandlerSet(members: set<Handler>, entry: EntryId, event: string)

  /** A subscription is the closure that ends it. */
  datatype Sub = Sub(org: string, event: string, handler: Handler, onStatus: Option<Handler>,
                     entry: EntryId, handlers: SetId, active: bool)

  /** removed: the entries whose channel was handed back to the client, in order. */
  datatype State = State(channels: map<string, EntryId>, entries: seq<Entry>, sets: seq<HandlerSet>,
                         subs: seq<Sub>, removed: seq<EntryId>)

  const NOTHING := State(map[], [], [], [], [])

  function AsSet(h: Option<Handler>): set<Handler> { if h.Some? then {h.value} else {} }

  /** Ids lead somewhere, and every set is used only for the entry and event it was made for. */
  predicate EntryWired(s: State, e: nat)
    requires e < |s.entries|
  {
    forall v <- s.entries[e].handlers :: var id := s.entries[e].handlers[v];
      id < |s.sets| && s.sets[id].entry == e && s.sets[id].event == v
  }

  predicate SubWired(s: State, k: nat)
    requires k < |s.subs|
  {
    var sub := s.subs[k];
    && sub.entry < |s.entries| && s.entries[sub.entry].org == sub.org
    && sub.handlers < |s.sets| && s.sets[sub.handlers].entry == sub.entry && s.sets[sub.handlers].event == sub.event
  }

  predicate Wired(s: State) {
    && (forall org <- s.channels :: s.channels[org] < |s.entries|)
    && (forall e: nat :: e < |s.entries| ==> EntryWired(s, e))
    && (forall k: nat :: k < |s.subs| ==> SubWired(s, k))
  }

  // ---- The operations ----

  function Ensure(s: State, org: string): State {
    if org in s.channels then s
    else s.(channels := s.channels[org := |s.entries|], entries := s.entries + [Entry(org, map[], {}, false)])
  }

  /** Adds a subscription to an entry that is there. */
  function Join(s: State, e: EntryId, event: string, h: Handler, onStatus: Option<Handler>): State
    requires e < |s.entries| && EntryWired(s, e)
  {
    var entry := s.entries[e];
    var known := event in entry.handlers;
    var id := if known then entry.handlers[event] else |s.sets|;
    s.(sets := if known then s.sets[id := s.sets[id].(members := s.sets[id].members + {h})]
               else s.sets + [HandlerSet({h}, e, event)],
       entries := s.entries[e := entry.(handlers := entry.handlers[event := id],
                                        statusHandlers := entry.statusHandlers + AsSet(onStatus))],
       subs := s.subs + [Sub(entry.org, event, h, onStatus, e, id, true)])
  }

  function Subscribe(s: State, org: string, event: string, h: Handler, onStatus: Option<Handler>): State
    requires Wired(s)
  {
    if org == "" || event == "" then s
    else
      var s' := Ensure(s, org);
      Join(s', s'.channels[org], event, h, onStatus)
  }

  /** The handlers an event from a channel is passed to. */
  function Delivered(s: State, e: EntryId, event: string): set<Handler>
    requires e < |s.entries| && EntryWired(s, e)
  {
    if event in s.entries[e].handlers then s.sets[s.entries[e].handlers[event]].members else {}
  }

  predicate HasHandlers(s: State, e: EntryId)
    requires e < |s.entries| && EntryWired(s, e)
  {
    exists v :: v in s.entries[e].handlers && Delivered(s, e, v) != {}
  }

  function Release(s: State, org: string, e: EntryId): State
    requires e < |s.entries| && EntryWired(s, e)
  {
    if HasHandlers(s, e) || s.entries[e].statusHandlers != {} then s
    else if !(org in s.channels && s.channels[org] == e) then s
    else
      s.(entries := s.entries[e := s.entries[e].(closed := true)], channels := s.channels - {org},
         removed := s.removed + [e])
  }

  /** The closure of a subscription, up to the release of the channel. */
  function Leave(s: State, k: nat): (r: State)
    requires Wired(s) && k < |s.subs|
    ensures |r.entries| == |s.entries| && EntryWired(r, s.subs[k].entry)
  {
    assert SubWired(s, k) && EntryWired(s, s.subs[k].entry);
    var sub := s.subs[k];
    var entry := s.entries[sub.entry];
    var left := s.sets[sub.handlers].members - {sub.handler};
    s.(subs := s.subs[k := sub.(active := false)],
       sets := s.sets[sub.handlers := s.sets[sub.handlers].(members := left)],
       entries := s.entries[sub.entry :=
         entry.(handlers := if left == {} then entry.handlers - {sub.event} else entry.handlers,
                statusHandlers := entry.statusHandlers - AsSet(sub.onStatus))])
  }

  function Unsubscribe(s: State, k: nat): State
    requires Wired(s) && k < |s.subs|
  {
    assert SubWired(s, k);
    if !s.subs[k].active then s else Release(Leave(s, k), s.subs[k].org, s.subs[k].entry)
  }

  /** One turn of the loop that disconnects every channel. */
  function DisconnectOne(s: State, org: string): State
    requires Wired(s) && org in s.channels
  {
    var e := s.channels[org];
    Release(s.(entries := s.entries[e := s.entries[e].(handlers := map[], statusHandlers := {})]), org, e)
  }

  // ---- What every operation keeps ----

  predicate Open(s: State, e: nat) { e < |s.entries| && !s.entries[e].closed }

  /** A subscription that was neither ended nor cut off by a disconnect. */
  predicate Live(s: State, k: nat) {
    k < |s.subs| && s.subs[k].active && Open(s, s.subs[k].entry)
  }

  predicate LiveOn(s: State, k: nat, e: nat, event: string, h: Handler) {
    Live(s, k) && s.subs[k].entry == e && s.subs[k].event == event && s.subs[k].handler == h
  }

  ghost predicate ChannelsOk(s: State) {
    && (forall org <- s.channels :: Open(s, s.channels[org]) && s.entries[s.channels[org]].org == org)
    && (forall e: nat :: Open(s, e) ==> s.entries[e].org in s.channels && s.channels[s.entries[e].org] == e)
    && (forall e: nat :: e < |s.entries| && s.entries[e].closed ==> s.entries[e].handlers == map[])
  }

  ghost predicate RemovedOk(s: State) {
    && (forall i, j :: 0 <= i < j < |s.removed| ==> s.removed[i] != s.removed[j])
    && (forall e: nat :: e in s.removed <==> e < |s.entries| && s.entries[e].closed)
  }

  /** A live subscription's handler sits in the set its entry keeps for its event. */
  ghost predicate SubHeld(s: State, k: nat) {
    Live(s, k) ==>
      var sub := s.subs[k];
      && sub.event in s.entries[sub.entry].handlers && s.entries[sub.entry].handlers[sub.event] == sub.handlers
      && sub.handlers < |s.sets| && sub.handler in s.sets[sub.handlers].members
  }

  /** Every handler a channel keeps is that of a live subscription, and no kept set is empty. */
  ghost predicate SetBacked(s: State, e: nat, v: string) {
    Open(s, e) && v in s.entries[e].handlers ==>
      var id := s.entries[e].handlers[v];
      && id < |s.sets| && s.sets[id].members != {}
      && forall h <- s.sets[id].members :: exists k :: LiveOn(s, k, e, v, h)
  }

  ghost predicate StatusBacked(s: State, e: nat, h: Handler) {
    Open(s, e) && h in s.entries[e].statusHandlers ==>
      exists k: nat :: Live(s, k) && s.subs[k].entry == e && s.subs[k].onStatus == Some(h)
  }

  predicate SamePlace(a: Sub, b: Sub) { a.entry == b.entry && a.event == b.event && a.handler == b.handler }

  /** Live subscriptions to one event of one channel have different handlers. */
  ghost predicate DistinctHandlers(s: State) {
    forall j: nat, k: nat :: Live(s, j) && Live(s, k) && SamePlace(s.subs[j], s.subs[k]) ==> j == k
  }

  ghost predicate Held(s: State) { forall k: nat :: SubHeld(s, k) }

  ghost predicate Backed(s: State) {
    && (forall e: nat, v: string :: SetBacked(s, e, v))
    && (forall e: nat, h: Handler :: StatusBacked(s, e, h))
  }

  ghost predicate Inv(s: State) {
    Wired(s) && ChannelsOk(s) && RemovedOk(s) && Held(s) && Backed(s) && DistinctHandlers(s)
  }

  /** The handler is new to the organisation's event. */
  ghost predicate NewHandler(s: State, org: string, event: string, h: Handler) {
    forall k: nat :: Live(s, k) && s.subs[k].org == org && s.subs[k].event == event ==> s.subs[k].handler != h
  }

  // ---- Subscribing ----

  lemma EnsureKeepsInv(s: State, org: string)
    requires Inv(s)
    ensures var s' := Ensure(s, org);
      && Inv(s') && org in s'.channels && s'.subs == s.subs
      && (forall k: nat :: Live(s', k) == Live(s, k))
      && (forall e: nat :: Open(s', e) ==> Open(s, e) || e == s'.channels[org])
  {
    var s' := Ensure(s, org);
    if org !in s.channels {
      forall e: nat | e < |s'.entries| ensures EntryWired(s', e) {
        assert e < |s.entries| ==> EntryWired(s, e);
      }
      forall k: nat | k < |s.subs| ensures SubWired(s', k) && Live(s', k) == Live(s, k) {
        assert SubWired(s, k);
      }
      NewEntryKeepsChannels(s, org);
      forall k: nat ensures SubHeld(s', k) {
        assert SubHeld(s, k);
      }
      forall e: nat, v: string ensures SetBacked(s', e, v) {
        assert SetBacked(s, e, v);
        assert forall k: nat, h: Handler :: LiveOn(s, k, e, v, h) ==> LiveOn(s', k, e, v, h);
      }
      forall e: nat, h: Handler ensures StatusBacked(s', e, h) {
        assert StatusBacked(s, e, h);
      }
    }
  }

  lemma NewEntryKeepsChannels(s: State, org: string)
    requires ChannelsOk(s) && RemovedOk(s) && org !in s.channels
    ensures ChannelsOk(Ensure(s, org)) && RemovedOk(Ensure(s, org))
  {
    var s' := Ensure(s, org);
    forall e: nat ensures Open(s', e) <==> Open(s, e) || e == |s.entries| {
    }
  }

  lemma JoinKeepsWires(s: State, e: EntryId, event: string, h: Handler, onStatus: Option<Handler>)
    requires Wired(s) && ChannelsOk(s) && RemovedOk(s) && Open(s, e)
    ensures var s' := Join(s, e, event, h, onStatus);
      && Wired(s') && ChannelsOk(s') && RemovedOk(s')
      && (forall f: nat :: Open(s', f) == Open(s, f))
      && (forall k: nat :: Live(s', k) <==> Live(s, k) || k == |s.subs|)
  {
    var s' := Join(s, e, event, h, onStatus);
    forall f: nat | f < |s'.entries| ensures EntryWired(s', f) {
      assert EntryWired(s, f);
    }
    forall k: nat | k < |s'.subs| ensures SubWired(s', k) {
      assert k < |s.subs| ==> SubWired(s, k);
    }
    forall f: nat ensures Open(s', f) == Open(s, f) && (f < |s.entries| ==> s'.entries[f].org == s.entries[f].org) {
    }
    forall k: nat ensures Live(s', k) <==> Live(s, k) || k == |s.subs| {
      assert k < |s.subs| ==> SubWired(s, k);
    }
  }

  lemma JoinKeepsSets(s: State, e: EntryId, event: string, h: Handler, onStatus: Option<Handler>)
    requires Inv(s) && Open(s, e)
    ensures var s' := Join(s, e, event, h, onStatus); Held(s') && Backed(s')
  {
    hide ChannelsOk, RemovedOk, DistinctHandlers;
    var s' := Join(s, e, event, h, onStatus);
    assert EntryWired(s, e);
    JoinKeepsWires(s, e, event, h, onStatus);
    forall k: nat ensures SubHeld(s', k) {
      assert SubHeld(s, k);
      assert k < |s.subs| ==> SubWired(s, k);
    }
    forall f: nat, v: string ensures SetBacked(s', f, v) {
      JoinKeepsSetBacked(s, e, event, h, onStatus, f, v);
    }
    forall f: nat, g: Handler ensures StatusBacked(s', f, g) {
      assert StatusBacked(s, f, g);
      assert Live(s', |s.subs|) && s'.subs[|s.subs|].entry == e;
    }
  }

  lemma JoinKeepsSetBacked(s: State, e: EntryId, event: string, h: Handler, onStatus: Option<Handler>,
                           f: nat, v: string)
    requires Inv(s) && Open(s, e)
    ensures SetBacked(Join(s, e, event, h, onStatus), f, v)
  {
    hide ChannelsOk, RemovedOk, DistinctHandlers, Held;
    var s' := Join(s, e, event, h, onStatus);
    JoinKeepsWires(s, e, event, h, onStatus);
    assert SetBacked(s, f, v) && EntryWired(s, e);
    assert f < |s.entries| ==> EntryWired(s, f);
    forall g: Handler, k: nat | LiveOn(s, k, f, v, g) ensures LiveOn(s', k, f, v, g) {
    }
    assert LiveOn(s', |s.subs|, e, event, h);
  }

  lemma JoinKeepsDistinct(s: State, e: EntryId, event: string, h: Handler, onStatus: Option<Handler>)
    requires Inv(s) && Open(s, e)
    requires forall k: nat :: Live(s, k) && s.subs[k].entry == e && s.subs[k].event == event ==> s.subs[k].handler != h
    ensures DistinctHandlers(Join(s, e, event, h, onStatus))
  {
    hide RemovedOk, ChannelsOk, Held, Backed;
    JoinKeepsWires(s, e, event, h, onStatus);
  }

  /** Subscribing with a handler new to the event keeps everything in order. */
  lemma SubscribeKeepsInv(s: State, org: string, event: string, h: Handler, onStatus: Option<Handler>)
    requires Inv(s) && NewHandler(s, org, event, h)
    ensures Inv(Subscribe(s, org, event, h, onStatus))
  {
    if org != "" && event != "" {
      hide Inv;
      var s' := Ensure(s, org);
      EnsureKeepsInv(s, org);
      var e := s'.channels[org];
      InvParts(s');
      NewOnEntry(s, org, event, h);
      JoinKeepsWires(s', e, event, h, onStatus);
      JoinKeepsSets(s', e, event, h, onStatus);
      JoinKeepsDistinct(s', e, event, h, onStatus);
      InvFrom(Join(s', e, event, h, onStatus));
    }
  }

  lemma InvParts(s: State)
    requires Inv(s)
    ensures Wired(s) && ChannelsOk(s) && RemovedOk(s) && Held(s) && Backed(s) && DistinctHandlers(s)
    ensures forall org <- s.channels :: Open(s, s.channels[org])
  {
  }

  lemma InvFrom(s: State)
    requires Wired(s) && ChannelsOk(s) && RemovedOk(s) && Held(s) && Backed(s) && DistinctHandlers(s)
    ensures Inv(s)
  {
  }

  lemma NewOnEntry(s: State, org: string, event: string, h: Handler)
    requires Inv(s) && NewHandler(s, org, event, h)
    ensures var s' := Ensure(s, org);
      org in s'.channels &&
      forall k: nat :: Live(s', k) && s'.subs[k].entry == s'.channels[org] && s'.subs[k].event == event ==>
        s'.subs[k].handler != h
  {
    hide Backed, Held, RemovedOk, DistinctHandlers;
    EnsureKeepsInv(s, org);
    var s' := Ensure(s, org);
    forall k: nat | Live(s', k) && s'.subs[k].entry == s'.channels[org] && s'.subs[k].event == event
      ensures s'.subs[k].handler != h
    {
      assert SubWired(s', k);
      assert Live(s, k);
    }
  }

  // ---- Leaving and releasing ----

  lemma LeaveKeepsWires(s: State, k: nat)
    requires Wired(s) && ChannelsOk(s) && RemovedOk(s) && k < |s.subs|
    ensures var s' := Leave(s, k);
      && Wired(s') && ChannelsOk(s') && RemovedOk(s')
      && (forall f: nat :: Open(s', f) == Open(s, f))
      && (forall j: nat :: Live(s', j) <==> Live(s, j) && j != k)
  {
    var s' := Leave(s, k);
    assert SubWired(s, k) && EntryWired(s, s.subs[k].entry);
    forall f: nat | f < |s'.entries| ensures EntryWired(s', f) {
      assert EntryWired(s, f);
    }
    forall j: nat | j < |s'.subs| ensures SubWired(s', j) {
      assert SubWired(s, j);
    }
    forall f: nat ensures Open(s', f) == Open(s, f) && (f < |s.entries| ==> s'.entries[f].org == s.entries[f].org) {
    }
    forall j: nat ensures Live(s', j) <==> Live(s, j) && j != k {
      assert j < |s.subs| ==> SubWired(s, j);
    }
  }

  lemma LeaveKeepsInv(s: State, k: nat)
    requires Inv(s) && k < |s.subs| && s.subs[k].active
    ensures Inv(Leave(s, k))
  {
    hide ChannelsOk, RemovedOk;
    var s' := Leave(s, k);
    LeaveKeepsWires(s, k);
    assert SubWired(s, k);
    forall j: nat ensures SubHeld(s', j) {
      LeaveKeepsHeld(s, k, j);
    }
    forall f: nat, v: string ensures SetBacked(s', f, v) {
      LeaveKeepsSetBacked(s, k, f, v);
    }
    forall f: nat, g: Handler ensures StatusBacked(s', f, g) {
      assert StatusBacked(s, f, g);
    }
  }

  /** The leaver takes only its own handler along, because no other live subscription there has it. */
  lemma LeaveKeepsHeld(s: State, k: nat, j: nat)
    requires Inv(s) && k < |s.subs| && s.subs[k].active
    ensures SubHeld(Leave(s, k), j)
  {
    hide ChannelsOk, RemovedOk, Backed;
    LeaveKeepsWires(s, k) by { InvParts(s); }
    assert SubWired(s, k) && SubHeld(s, j) && SubHeld(s, k) && (j < |s.subs| ==> SubWired(s, j));
    if Live(s, j) && j != k && s.subs[j].entry == s.subs[k].entry {
      assert Live(s, k);
      assert !SamePlace(s.subs[j], s.subs[k]);
    }
  }

  lemma LeaveKeepsSetBacked(s: State, k: nat, f: nat, v: string)
    requires Inv(s) && k < |s.subs| && s.subs[k].active
    ensures SetBacked(Leave(s, k), f, v)
  {
    hide ChannelsOk, RemovedOk, DistinctHandlers;
    LeaveKeepsWires(s, k) by { InvParts(s); }
    assert SubWired(s, k) && SubHeld(s, k) && SetBacked(s, f, v) && (f < |s.entries| ==> EntryWired(s, f));
    var s' := Leave(s, k);
    forall h: Handler, j: nat | LiveOn(s, j, f, v, h) && j != k ensures LiveOn(s', j, f, v, h) {
    }
  }

  predicate Idle(s: State, e: EntryId)
    requires e < |s.entries| && EntryWired(s, e)
  {
    !HasHandlers(s, e) && s.entries[e].statusHandlers == {}
  }

  /** An open channel has nothing left exactly when it has no live subscription. */
  lemma IdleExactly(s: State, e: EntryId)
    requires Inv(s) && Open(s, e) && EntryWired(s, e)
    ensures Idle(s, e) <==> !exists k: nat :: Live(s, k) && s.subs[k].entry == e
  {
    hide ChannelsOk, RemovedOk, DistinctHandlers;
    if k: nat :| Live(s, k) && s.subs[k].entry == e {
      assert SubHeld(s, k);
      assert Delivered(s, e, s.subs[k].event) != {};
    }
    if HasHandlers(s, e) {
      var v :| v in s.entries[e].handlers && Delivered(s, e, v) != {};
      var h :| h in Delivered(s, e, v);
      assert SetBacked(s, e, v);
      var k :| LiveOn(s, k, e, v, h);
    }
    if s.entries[e].statusHandlers != {} {
      var h :| h in s.entries[e].statusHandlers;
      assert StatusBacked(s, e, h);
    }
  }

  lemma ReleaseKeepsInv(s: State, org: string, e: EntryId)
    requires Inv(s) && e < |s.entries| && EntryWired(s, e) && s.entries[e].org == org
    ensures var s' := Release(s, org, e);
      && Inv(s')
      && (Open(s', e) ==> exists k: nat :: Live(s', k) && s'.subs[k].entry == e)
      && (forall k: nat :: Live(s', k) == Live(s, k))
      && (forall f: nat :: f != e ==> Open(s', f) == Open(s, f))
  {
    if Open(s, e) {
      IdleExactly(s, e);
      if Idle(s, e) {
        CloseKeepsInv(s, e);
      }
    }
  }

  lemma CloseKeepsInv(s: State, e: EntryId)
    requires Inv(s) && Open(s, e) && EntryWired(s, e) && Idle(s, e)
    requires !exists k: nat :: Live(s, k) && s.subs[k].entry == e
    ensures var s' := Release(s, s.entries[e].org, e);
      Inv(s') && s'.subs == s.subs && !Open(s', e) && forall f: nat :: f != e ==> Open(s', f) == Open(s, f)
    ensures forall k: nat :: Live(Release(s, s.entries[e].org, e), k) == Live(s, k)
  {
    var org := s.entries[e].org;
    var s' := Release(s, org, e);
    forall v ensures v !in s.entries[e].handlers {
      assert SetBacked(s, e, v);
      assert v in s.entries[e].handlers ==> Delivered(s, e, v) != {};
    }
    assert s.entries[e].handlers == map[];
    ClosedKeepsChannels(s, e);
    forall k: nat ensures Live(s', k) == Live(s, k) {
      assert k < |s.subs| ==> SubWired(s, k);
    }
    hide ChannelsOk, RemovedOk;
    forall f: nat | f < |s'.entries| ensures EntryWired(s', f) {
      assert EntryWired(s, f);
    }
    forall k: nat | k < |s'.subs| ensures SubWired(s', k) {
      assert SubWired(s, k);
    }
    forall k: nat ensures SubHeld(s', k) {
      assert SubHeld(s, k);
    }
    forall f: nat, v: string ensures SetBacked(s', f, v) {
      assert SetBacked(s, f, v);
      assert forall k: nat, h: Handler :: LiveOn(s, k, f, v, h) ==> LiveOn(s', k, f, v, h);
    }
    forall f: nat, h: Handler ensures StatusBacked(s', f, h) {
      assert StatusBacked(s, f, h);
    }
  }

  lemma ClosedKeepsChannels(s: State, e: EntryId)
    requires ChannelsOk(s) && RemovedOk(s) && Open(s, e) && s.entries[e].handlers == map[]
    ensures var org := s.entries[e].org;
      var s' := s.(entries := s.entries[e := s.entries[e].(closed := true)], channels := s.channels - {org},
                   removed := s.removed + [e]);
      ChannelsOk(s') && RemovedOk(s')
  {
    var org := s.entries[e].org;
    var s' := s.(entries := s.entries[e := s.entries[e].(closed := true)], channels := s.channels - {org},
                 removed := s.removed + [e]);
    forall f: nat ensures Open(s', f) <==> Open(s, f) && f != e {
    }
  }
}
