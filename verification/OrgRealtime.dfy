/** Organisation channels over any run of subscribing, unsubscribing and disconnecting. */
module OrgRealtime {
  import opened Wrappers
  import opened OrgEvents

  /** Every channel that is still up serves someone. */
  ghost predicate NoIdle(s: State) {
    forall e: nat :: Open(s, e) ==> exists k: nat :: Live(s, k) && s.subs[k].entry == e
  }

  ghost predicate Good(s: State) { Inv(s) && NoIdle(s) }

  // ---- Each operation ----

  lemma UnsubscribeKeepsGood(s: State, k: nat)
    requires Good(s) && k < |s.subs|
    ensures Good(Unsubscribe(s, k))
    ensures forall j: nat :: Live(Unsubscribe(s, k), j) <==> Live(s, j) && j != k
  {
    InvParts(s);
    if s.subs[k].active {
      var left := Leave(s, k);
      var e := s.subs[k].entry;
      LeaveKeepsInv(s, k);
      LeaveKeepsWires(s, k);
      assert SubWired(s, k) && SubWired(left, k);
      hide Inv, Leave, Release;
      ReleaseKeepsInv(left, s.subs[k].org, e);
      var s' := Unsubscribe(s, k);
      forall f: nat | Open(s', f) ensures exists j: nat :: Live(s', j) && s'.subs[j].entry == f {
        if f != e {
          var j: nat :| Live(s, j) && s.subs[j].entry == f;
          SameSubs(s, k, j);
          assert Live(s', j);
        }
      }
    }
  }

  /** Nothing but its own activity flag changes in a subscription that others end. */
  lemma SameSubs(s: State, k: nat, j: nat)
    requires Wired(s) && k < |s.subs| && s.subs[k].active && j < |s.subs| && j != k
    ensures j < |Unsubscribe(s, k).subs| && Unsubscribe(s, k).subs[j] == s.subs[j]
  {
  }

  lemma SubscribeKeepsGood(s: State, org: string, event: string, h: Handler, onStatus: Option<Handler>)
    requires Good(s) && NewHandler(s, org, event, h)
    ensures Good(Subscribe(s, org, event, h, onStatus))
  {
    hide Inv;
    SubscribeKeepsInv(s, org, event, h, onStatus);
    if org != "" && event != "" {
      var s1 := Ensure(s, org);
      EnsureKeepsInv(s, org);
      InvParts(s1);
      JoinServes(s, s1, s1.channels[org], event, h, onStatus);
    }
  }

  lemma JoinServes(s: State, s1: State, e: EntryId, event: string, h: Handler, onStatus: Option<Handler>)
    requires Wired(s1) && ChannelsOk(s1) && RemovedOk(s1) && Open(s1, e) && NoIdle(s) && s1.subs == s.subs
    requires forall k: nat :: Live(s1, k) == Live(s, k)
    requires forall f: nat :: Open(s1, f) ==> Open(s, f) || f == e
    ensures NoIdle(Join(s1, e, event, h, onStatus))
  {
    var s' := Join(s1, e, event, h, onStatus);
    JoinKeepsWires(s1, e, event, h, onStatus);
    hide Wired, ChannelsOk, RemovedOk;
    assert s'.subs[..|s.subs|] == s.subs;
    forall f: nat | Open(s', f) ensures exists j: nat :: Live(s', j) && s'.subs[j].entry == f {
      if f == e {
        assert Live(s', |s1.subs|);
      } else {
        var j: nat :| Live(s, j) && s.subs[j].entry == f;
        assert Live(s', j);
      }
    }
  }

  lemma DisconnectOneShape(s: State, org: string)
    requires Inv(s) && org in s.channels
    ensures var e := s.channels[org];
      DisconnectOne(s, org) ==
        s.(entries := s.entries[e := Entry(org, map[], {}, true)], channels := s.channels - {org},
           removed := s.removed + [e])
  {
    hide Held, Backed, DistinctHandlers, RemovedOk;
  }

  /** Cutting a channel off ends its subscriptions and leaves every other channel alone. */
  lemma DisconnectOneKeepsGood(s: State, org: string)
    requires Good(s) && org in s.channels
    ensures var s' := DisconnectOne(s, org);
      && Good(s') && s'.subs == s.subs && s'.channels == s.channels - {org}
      && (forall k: nat :: Live(s', k) <==> Live(s, k) && s.subs[k].entry != s.channels[org])
  {
    var e := s.channels[org];
    var s' := DisconnectOne(s, org);
    DisconnectOneShape(s, org);
    InvParts(s);
    CutKeepsChannels(s, org);
    hide ChannelsOk, RemovedOk, DisconnectOne, Inv;
    forall f: nat ensures Open(s', f) <==> Open(s, f) && f != e {
    }
    forall f: nat | f < |s'.entries| ensures EntryWired(s', f) {
      assert EntryWired(s, f);
    }
    forall k: nat | k < |s'.subs| ensures SubWired(s', k) {
      assert SubWired(s, k);
    }
    forall k: nat ensures Live(s', k) <==> Live(s, k) && s.subs[k].entry != e {
      assert k < |s.subs| ==> SubWired(s, k);
    }
    forall k: nat ensures SubHeld(s', k) {
      assert SubHeld(s, k);
    }
    forall f: nat, v: string ensures SetBacked(s', f, v) {
      assert SetBacked(s, f, v);
      assert forall k: nat, h: Handler :: f != e && LiveOn(s, k, f, v, h) ==> LiveOn(s', k, f, v, h);
    }
    forall f: nat, h: Handler ensures StatusBacked(s', f, h) {
      assert StatusBacked(s, f, h);
    }
  }

  lemma CutKeepsChannels(s: State, org: string)
    requires ChannelsOk(s) && RemovedOk(s) && org in s.channels
    ensures var e := s.channels[org];
      var s' := s.(entries := s.entries[e := Entry(org, map[], {}, true)], channels := s.channels - {org},
                   removed := s.removed + [e]);
      ChannelsOk(s') && RemovedOk(s')
  {
    var e := s.channels[org];
    var s' := s.(entries := s.entries[e := Entry(org, map[], {}, true)], channels := s.channels - {org},
                 removed := s.removed + [e]);
    forall f: nat ensures Open(s', f) <==> Open(s, f) && f != e {
    }
  }

  /** Disconnecting everything visits the channels in some order. */
  ghost predicate Lists(order: seq<string>, keys: set<string>) {
    && (forall i, j :: 0 <= i < j < |order| ==> order[i] != order[j])
    && (forall org :: org in order <==> org in keys)
  }

  ghost predicate CutInOrder(s: State, order: seq<string>, s': State)
    decreases |order|
  {
    if order == [] then s' == s
    else Wired(s) && order[0] in s.channels && CutInOrder(DisconnectOne(s, order[0]), order[1..], s')
  }

  lemma {:induction false} DisconnectAllKeepsGood(s: State, order: seq<string>, s': State)
    requires Good(s) && CutInOrder(s, order, s')
    ensures Good(s') && s'.subs == s.subs
    ensures forall org :: org in s'.channels <==> org in s.channels && org !in order
    decreases |order|
  {
    if order != [] {
      hide Good, Wired, DisconnectOne;
      DisconnectOneKeepsGood(s, order[0]);
      DisconnectAllKeepsGood(DisconnectOne(s, order[0]), order[1..], s');
      assert forall org :: org in order <==> org == order[0] || org in order[1..];
    }
  }

  /** After disconnecting everything no channel is left in the map and no subscription is live. */
  lemma DisconnectAllEndsAll(s: State, order: seq<string>, s': State)
    requires Good(s) && Lists(order, s.channels.Keys) && CutInOrder(s, order, s')
    ensures s'.channels == map[] && forall k: nat :: !Live(s', k)
  {
    DisconnectAllKeepsGood(s, order, s');
    InvParts(s');
    hide Inv, CutInOrder;
    assert forall org :: org !in s'.channels;
  }

  // ---- Runs ----

  datatype Event =
    | Subscribed(org: string, event: string, handler: Handler, onStatus: Option<Handler>)
    | Unsubscribed(k: nat)
    | DisconnectedAll(order: seq<string>)

  /** Handlers are new to the event they subscribe to; ending a subscription may be repeated. */
  ghost predicate Happens(s: State, ev: Event, s': State) {
    match ev
    case Subscribed(org, event, h, onStatus) =>
      Wired(s) && NewHandler(s, org, event, h) && s' == Subscribe(s, org, event, h, onStatus)
    case Unsubscribed(k) => Wired(s) && k < |s.subs| && s' == Unsubscribe(s, k)
    case DisconnectedAll(order) => Lists(order, s.channels.Keys) && CutInOrder(s, order, s')
  }

  ghost predicate Leads(s: State, evs: seq<Event>, t: State)
    decreases |evs|
  {
    if evs == [] then t == s
    else
      var last := |evs| - 1;
      exists before :: Leads(s, evs[..last], before) && Happens(before, evs[last], t)
  }

  ghost predicate Reaches(evs: seq<Event>, s: State) { Leads(NOTHING, evs, s) }

  lemma HappensKeepsGood(s: State, ev: Event, t: State)
    requires Good(s) && Happens(s, ev, t)
    ensures Good(t)
  {
    hide Inv, NoIdle, Wired, NewHandler;
    match ev
    case Subscribed(org, event, h, onStatus) => SubscribeKeepsGood(s, org, event, h, onStatus);
    case Unsubscribed(k) => UnsubscribeKeepsGood(s, k);
    case DisconnectedAll(order) => DisconnectAllKeepsGood(s, order, t);
  }

  lemma {:induction false} LeadsKeepsGood(s: State, evs: seq<Event>, t: State)
    requires Good(s) && Leads(s, evs, t)
    ensures Good(t)
    decreases |evs|
  {
    if evs != [] {
      hide Good, Happens;
      var last := |evs| - 1;
      var before :| Leads(s, evs[..last], before) && Happens(before, evs[last], t);
      LeadsKeepsGood(s, evs[..last], before);
      HappensKeepsGood(before, evs[last], t);
    }
  }

  lemma ReachableGood(evs: seq<Event>, s: State)
    requires Reaches(evs, s)
    ensures Good(s)
  {
    LeadsKeepsGood(NOTHING, evs, s);
  }

  /** An organisation has a channel in the map exactly while one of its subscriptions is live. */
  lemma ChannelExactlyWhileSubscribed(evs: seq<Event>, s: State, org: string)
    requires Reaches(evs, s)
    ensures org in s.channels <==> exists k: nat :: Live(s, k) && s.subs[k].org == org
  {
    ReachableGood(evs, s);
    hide Held, Backed, DistinctHandlers, RemovedOk, Reaches;
    if org in s.channels {
      var k: nat :| Live(s, k) && s.subs[k].entry == s.channels[org];
      assert SubWired(s, k);
    }
    if k: nat :| Live(s, k) && s.subs[k].org == org {
      assert SubWired(s, k);
    }
  }

  /** A channel is handed back once, when its entry closes, and never while its entry is open. */
  lemma EachChannelRemovedOnce(evs: seq<Event>, s: State)
    requires Reaches(evs, s)
    ensures forall i, j :: 0 <= i < j < |s.removed| ==> s.removed[i] != s.removed[j]
    ensures forall e: nat :: e in s.removed <==> e < |s.entries| && s.entries[e].closed
  {
    ReachableGood(evs, s);
  }

  /** An event on a channel reaches exactly the handlers of the live subscriptions to it; on a closed one, nobody. */
  lemma DeliveredExactly(evs: seq<Event>, s: State, e: EntryId, event: string, h: Handler)
    requires Reaches(evs, s) && e < |s.entries|
    ensures EntryWired(s, e)
    ensures h in Delivered(s, e, event) <==> exists k: nat :: LiveOn(s, k, e, event, h)
  {
    ReachableGood(evs, s);
    assert EntryWired(s, e);
    DeliveredInGood(s, e, event, h);
  }

  lemma DeliveredInGood(s: State, e: EntryId, event: string, h: Handler)
    requires Inv(s) && e < |s.entries| && EntryWired(s, e)
    ensures h in Delivered(s, e, event) <==> exists k: nat :: LiveOn(s, k, e, event, h)
  {
    hide RemovedOk, DistinctHandlers;
    assert SetBacked(s, e, event);
    if k: nat :| LiveOn(s, k, e, event, h) {
      assert SubHeld(s, k);
    }
  }

  /** Ending a subscription that was ended before, or cut off by a disconnect, touches no channel that is
      up: not its place in the map, not its handlers, not its removal. */
  lemma StaleUnsubscribeIsHarmless(evs: seq<Event>, s: State, k: nat)
    requires Reaches(evs, s) && k < |s.subs| && !Live(s, k)
    ensures Wired(s)
    ensures var s' := Unsubscribe(s, k);
      && s'.channels == s.channels && s'.removed == s.removed
      && (forall e: nat :: Open(s', e) == Open(s, e))
      && (forall e: nat :: Open(s, e) ==> s'.entries[e] == s.entries[e])
  {
    ReachableGood(evs, s);
    InvParts(s);
    if s.subs[k].active {
      assert SubWired(s, k);
      hide Held, Backed, DistinctHandlers, RemovedOk, Reaches, Inv;
      LeaveKeepsWiresOf(s, k);
    }
  }

  lemma LeaveKeepsWiresOf(s: State, k: nat)
    requires Wired(s) && ChannelsOk(s) && k < |s.subs| && s.subs[k].active && !Live(s, k)
    ensures var s' := Unsubscribe(s, k);
      && s'.channels == s.channels && s'.removed == s.removed
      && (forall e: nat :: Open(s', e) == Open(s, e))
      && (forall e: nat :: Open(s, e) ==> s'.entries[e] == s.entries[e])
  {
    assert SubWired(s, k);
    var e := s.subs[k].entry;
    assert !Open(s, e);
    assert !(s.subs[k].org in s.channels && s.channels[s.subs[k].org] == e);
  }

  // ---- When a handler is used twice ----

  /** Subscription k gets its events. */
  ghost predicate Served(s: State, k: nat) {
    k < |s.subs| &&
    var sub := s.subs[k];
    sub.entry < |s.entries| && EntryWired(s, sub.entry) && sub.handler in Delivered(s, sub.entry, sub.event)
  }

  /** Subscription k still gets its events, and the status changes it got before. */
  ghost predicate StillServed(s: State, s': State, k: nat)
    requires k < |s.subs| && s.subs[k].entry < |s.entries|
  {
    var sub := s.subs[k];
    && Served(s', k) && s'.subs[k] == sub
    && AsSet(sub.onStatus) * s.entries[sub.entry].statusHandlers <= s'.entries[sub.entry].statusHandlers
  }

  ghost predicate AllStillServed(s: State, s': State) {
    forall k: nat :: Live(s, k) ==> StillServed(s, s', k)
  }

  /** The status callback is none the organisation's channel holds. */
  predicate NewStatus(s: State, org: string, onStatus: Option<Handler>)
    requires Wired(s)
  {
    org in s.channels ==> AsSet(onStatus) !! s.entries[s.channels[org]].statusHandlers
  }

  /** Subscribing and at once unsubscribing leaves everybody else served exactly when the handler was new to
      the event and the status callback, if any, new to the channel: either is in its set once however often
      it was subscribed, and the first to leave takes it. */
  lemma PassingVisitIsHarmlessExactly(s: State, org: string, event: string, h: Handler, onStatus: Option<Handler>)
    requires Good(s) && org != "" && event != ""
    ensures Wired(s) && Wired(Subscribe(s, org, event, h, onStatus))
    ensures |Subscribe(s, org, event, h, onStatus).subs| == |s.subs| + 1
    ensures AllStillServed(s, Unsubscribe(Subscribe(s, org, event, h, onStatus), |s.subs|)) <==>
            NewHandler(s, org, event, h) && NewStatus(s, org, onStatus)
  {
    InvParts(s);
    SubscribeKeepsWires(s, org, event, h, onStatus);
    hide Inv, Subscribe, Wired, ChannelsOk, Held, Backed, RemovedOk, DistinctHandlers, Delivered, StillServed;
    if !NewHandler(s, org, event, h) {
      var k: nat :| Live(s, k) && s.subs[k].org == org && s.subs[k].event == event && s.subs[k].handler == h;
      SecondVisitTakes(s, k, onStatus);
    } else if !NewStatus(s, org, onStatus) {
      SecondStatusTaken(s, org, event, h, onStatus);
    } else {
      VisitServesAll(s, org, event, h, onStatus);
    }
  }

  lemma SubscribeKeepsWires(s: State, org: string, event: string, h: Handler, onStatus: Option<Handler>)
    requires Inv(s) && org != "" && event != ""
    ensures var s' := Subscribe(s, org, event, h, onStatus); Wired(s') && |s'.subs| == |s.subs| + 1
  {
    EnsureKeepsInv(s, org);
    var s1 := Ensure(s, org);
    InvParts(s1);
    hide Inv, Ensure, Held, Backed, DistinctHandlers;
    JoinKeepsWires(s1, s1.channels[org], event, h, onStatus);
  }

  /** What a visit leaves of a channel's status callbacks: all but the visitor's. */
  lemma StatusAfterVisit(s: State, org: string, event: string, h: Handler, onStatus: Option<Handler>, e: EntryId)
    requires Wired(s) && org != "" && event != "" && e < |s.entries|
    requires var joined := Subscribe(s, org, event, h, onStatus); Wired(joined) && |joined.subs| == |s.subs| + 1
    ensures var s' := Unsubscribe(Subscribe(s, org, event, h, onStatus), |s.subs|);
      && e < |s'.entries|
      && s'.entries[e].statusHandlers == s.entries[e].statusHandlers -
           (if org in s.channels && s.channels[org] == e then AsSet(onStatus) else {})
  {
    var joined := Subscribe(s, org, event, h, onStatus);
    var sub := joined.subs[|s.subs|];
    assert SubWired(joined, |s.subs|);
    assert sub.entry == (if org in s.channels then s.channels[org] else |s.entries|);
    assert e < |joined.entries| && joined.entries[e].statusHandlers ==
      s.entries[e].statusHandlers + if sub.entry == e then AsSet(onStatus) else {};
    hide Wired, Subscribe;
    LeaveTakesStatus(joined, |s.subs|, e);
  }

  lemma LeaveTakesStatus(s: State, k: nat, e: EntryId)
    requires Wired(s) && k < |s.subs| && s.subs[k].active && e < |s.entries|
    ensures var s' := Unsubscribe(s, k);
      && e < |s'.entries|
      && s'.entries[e].statusHandlers == s.entries[e].statusHandlers -
           (if s.subs[k].entry == e then AsSet(s.subs[k].onStatus) else {})
  {
    assert SubWired(s, k);
  }

  lemma StatusKept(s: State, org: string, event: string, h: Handler, onStatus: Option<Handler>, e: EntryId)
    requires Wired(s) && org != "" && event != "" && e < |s.entries| && NewStatus(s, org, onStatus)
    requires var joined := Subscribe(s, org, event, h, onStatus); Wired(joined) && |joined.subs| == |s.subs| + 1
    ensures var s' := Unsubscribe(Subscribe(s, org, event, h, onStatus), |s.subs|);
      e < |s'.entries| && s'.entries[e].statusHandlers == s.entries[e].statusHandlers
  {
    hide Wired, Subscribe, Unsubscribe;
    StatusAfterVisit(s, org, event, h, onStatus, e);
  }

  lemma VisitServesAll(s: State, org: string, event: string, h: Handler, onStatus: Option<Handler>)
    requires Good(s) && org != "" && event != "" && NewHandler(s, org, event, h) && NewStatus(s, org, onStatus)
    ensures var joined := Subscribe(s, org, event, h, onStatus);
      && Wired(joined) && |joined.subs| == |s.subs| + 1
      && AllStillServed(s, Unsubscribe(joined, |s.subs|))
  {
    var joined := Subscribe(s, org, event, h, onStatus);
    SubscribeKeepsGood(s, org, event, h, onStatus);
    InvParts(joined);
    var s' := Unsubscribe(joined, |s.subs|);
    UnsubscribeKeepsGood(joined, |s.subs|);
    InvParts(s');
    forall k: nat | Live(s, k)
      ensures Live(s', k) && s'.subs[k] == s.subs[k]
    {
      SubscribeKeepsLive(s, org, event, h, onStatus, k);
      SameSubs(joined, |s.subs|, k);
    }
    hide Inv, Subscribe, Unsubscribe, Wired, NewHandler, NewStatus;
    forall k: nat | Live(s, k)
      ensures StillServed(s, s', k)
    {
      StatusKept(s, org, event, h, onStatus, s.subs[k].entry);
      ServedWhenKept(s, s', k);
    }
  }

  lemma ServedWhenKept(s: State, s': State, k: nat)
    requires Inv(s') && Live(s, k) && Live(s', k) && s'.subs[k] == s.subs[k]
    requires var sub := s.subs[k];
      AsSet(sub.onStatus) * s.entries[sub.entry].statusHandlers <= s'.entries[sub.entry].statusHandlers
    ensures StillServed(s, s', k)
  {
    var sub := s.subs[k];
    assert SubWired(s', k) && EntryWired(s', sub.entry);
    DeliveredInGood(s', sub.entry, sub.event, sub.handler);
    assert LiveOn(s', k, sub.entry, sub.event, sub.handler);
  }

  lemma SubscribeKeepsLive(s: State, org: string, event: string, h: Handler, onStatus: Option<Handler>, k: nat)
    requires Inv(s) && org != "" && event != "" && Live(s, k)
    ensures var s' := Subscribe(s, org, event, h, onStatus);
      && Live(s', k) && s'.subs[k] == s.subs[k]
      && |s'.subs| == |s.subs| + 1 && s'.subs[|s.subs|].active
  {
    EnsureKeepsInv(s, org);
    var s1 := Ensure(s, org);
    InvParts(s1);
    JoinKeepsWires(s1, s1.channels[org], event, h, onStatus);
  }

  lemma SecondVisitTakes(s: State, k: nat, onStatus: Option<Handler>)
    requires Inv(s) && Live(s, k)
    requires var sub := s.subs[k]; sub.org != "" && sub.event != ""
    requires var sub := s.subs[k]; Wired(Subscribe(s, sub.org, sub.event, sub.handler, onStatus))
    requires var sub := s.subs[k]; |Subscribe(s, sub.org, sub.event, sub.handler, onStatus).subs| == |s.subs| + 1
    ensures var sub := s.subs[k];
      !Served(Unsubscribe(Subscribe(s, sub.org, sub.event, sub.handler, onStatus), |s.subs|), k)
  {
    hide RemovedOk, Backed, DistinctHandlers;
    var sub := s.subs[k];
    assert SubWired(s, k) && SubHeld(s, k);
    assert s.channels[sub.org] == sub.entry;
    var joined := Subscribe(s, sub.org, sub.event, sub.handler, onStatus);
    assert joined.subs[|s.subs|].handlers == sub.handlers;
  }

  /** A status callback the channel holds is that of a live subscription, which loses it to the visitor. */
  lemma SecondStatusTaken(s: State, org: string, event: string, h: Handler, onStatus: Option<Handler>)
    requires Inv(s) && org != "" && event != "" && !NewStatus(s, org, onStatus)
    requires var joined := Subscribe(s, org, event, h, onStatus); Wired(joined) && |joined.subs| == |s.subs| + 1
    ensures !AllStillServed(s, Unsubscribe(Subscribe(s, org, event, h, onStatus), |s.subs|))
  {
    var e := s.channels[org];
    assert onStatus.Some? && onStatus.value in s.entries[e].statusHandlers;
    assert StatusBacked(s, e, onStatus.value);
    var k: nat :| Live(s, k) && s.subs[k].entry == e && s.subs[k].onStatus == onStatus;
    StatusAfterVisit(s, org, event, h, onStatus, e);
    assert !StillServed(s, Unsubscribe(Subscribe(s, org, event, h, onStatus), |s.subs|), k);
  }

  // ---- Served until ended ----

  /** Nothing happens that ends subscription k: not its own closure, not a disconnect. */
  ghost predicate Undisturbed(evs: seq<Event>, k: nat) {
    forall i :: 0 <= i < |evs| ==> !evs[i].DisconnectedAll? && evs[i] != Unsubscribed(k)
  }

  lemma UndisturbedFront(evs: seq<Event>, k: nat)
    requires evs != [] && Undisturbed(evs, k)
    ensures var last := |evs| - 1;
      Undisturbed(evs[..last], k) && !evs[last].DisconnectedAll? && evs[last] != Unsubscribed(k)
  {
  }

  lemma HappensKeepsLive(s: State, ev: Event, t: State, k: nat)
    requires Good(s) && Happens(s, ev, t) && Live(s, k) && !ev.DisconnectedAll? && ev != Unsubscribed(k)
    ensures Live(t, k)
  {
    match ev
    case Subscribed(org, event, h, onStatus) =>
      if org != "" && event != "" {
        SubscribeKeepsLive(s, org, event, h, onStatus, k);
      }
    case Unsubscribed(j) => UnsubscribeKeepsGood(s, j);
  }

  lemma {:induction false} LiveUntilEnded(s: State, evs: seq<Event>, t: State, k: nat)
    requires Good(s) && Leads(s, evs, t) && Live(s, k) && Undisturbed(evs, k)
    ensures Live(t, k)
    decreases |evs|
  {
    if evs != [] {
      hide Good, Happens, Live, Undisturbed;
      UndisturbedFront(evs, k);
      var last := |evs| - 1;
      var before :| Leads(s, evs[..last], before) && Happens(before, evs[last], t);
      LeadsKeepsGood(s, evs[..last], before);
      LiveUntilEnded(s, evs[..last], before, k);
      HappensKeepsLive(before, evs[last], t, k);
    }
  }

  lemma LiveIsServed(s: State, k: nat)
    requires Inv(s) && Live(s, k)
    ensures Served(s, k)
  {
    var sub := s.subs[k];
    assert SubWired(s, k) && EntryWired(s, sub.entry);
    DeliveredInGood(s, sub.entry, sub.event, sub.handler);
    assert LiveOn(s, k, sub.entry, sub.event, sub.handler);
  }

  /** Whoever was subscribed keeps getting events until ended, whatever else happens. */
  ghost predicate AllServedUntilEnded(s: State, joined: State) {
    forall k: nat, evs: seq<Event>, t: State ::
      Live(s, k) && Leads(joined, evs, t) && Undisturbed(evs, k) ==> Served(t, k)
  }

  /** A new subscription leaves it so that all others keep getting their events until they are ended,
      exactly when its handler is new to the event. */
  lemma ServedUntilEndedExactly(s: State, org: string, event: string, h: Handler, onStatus: Option<Handler>)
    requires Good(s) && org != "" && event != ""
    ensures Wired(s)
    ensures AllServedUntilEnded(s, Subscribe(s, org, event, h, onStatus)) <==> NewHandler(s, org, event, h)
  {
    var joined := Subscribe(s, org, event, h, onStatus);
    InvParts(s);
    SubscribeKeepsWires(s, org, event, h, onStatus);
    hide Inv, Subscribe, Wired, Leads, Served, Undisturbed, NoIdle;
    if NewHandler(s, org, event, h) {
      forall k: nat, evs: seq<Event>, t: State | Live(s, k) && Leads(joined, evs, t) && Undisturbed(evs, k)
        ensures Served(t, k)
      {
        ServedAfterNewHandler(s, org, event, h, onStatus, k, evs, t);
      }
    } else {
      var k: nat :| Live(s, k) && s.subs[k].org == org && s.subs[k].event == event && s.subs[k].handler == h;
      SecondVisitTakes(s, k, onStatus);
      LeavingLeads(joined, |s.subs|, k);
    }
  }

  lemma ServedAfterNewHandler(s: State, org: string, event: string, h: Handler, onStatus: Option<Handler>,
                              k: nat, evs: seq<Event>, t: State)
    requires Good(s) && org != "" && event != "" && NewHandler(s, org, event, h) && Live(s, k)
    requires Wired(s) && Leads(Subscribe(s, org, event, h, onStatus), evs, t) && Undisturbed(evs, k)
    ensures Served(t, k)
  {
    hide Inv, Subscribe, Wired, Leads, Served, Undisturbed, NewHandler, Live, NoIdle;
    var joined := Subscribe(s, org, event, h, onStatus);
    SubscribeKeepsGood(s, org, event, h, onStatus);
    SubscribeKeepsLive(s, org, event, h, onStatus, k);
    LeadsKeepsGood(joined, evs, t);
    LiveUntilEnded(joined, evs, t, k);
    LiveIsServed(t, k);
  }

  lemma LeavingLeads(s: State, k: nat, other: nat)
    requires Wired(s) && k < |s.subs| && other != k
    ensures Leads(s, [Unsubscribed(k)], Unsubscribe(s, k)) && Undisturbed([Unsubscribed(k)], other)
  {
    hide Wired, Unsubscribe, Subscribe, NewHandler, CutInOrder, Lists;
    var evs := [Unsubscribed(k)];
    assert evs[..0] == [] && Leads(s, evs[..0], s);
    assert Happens(s, evs[0], Unsubscribe(s, k));
  }
}
