/** Status callbacks over any run in which neither a handler nor a status callback is used twice. */
module OrgStatus {
  import opened Wrappers
  import opened OrgEvents
  import opened OrgRealtime

  /** Subscription k gets the status changes of its channel, if it asked for them. */
  predicate Informed(s: State, k: nat) {
    k < |s.subs| && s.subs[k].entry < |s.entries| &&
    AsSet(s.subs[k].onStatus) <= s.entries[s.subs[k].entry].statusHandlers
  }

  ghost predicate AllInformed(s: State) { forall k: nat :: Live(s, k) ==> Informed(s, k) }

  predicate SharesStatus(a: Sub, b: Sub) {
    a.entry == b.entry && a.onStatus.Some? && a.onStatus == b.onStatus
  }

  ghost predicate DistinctStatus(s: State) {
    forall j: nat, k: nat :: Live(s, j) && Live(s, k) && SharesStatus(s.subs[j], s.subs[k]) ==> j == k
  }

  ghost predicate Apart(s: State) { Good(s) && AllInformed(s) && DistinctStatus(s) }

  /** A subscription brings a status callback its channel does not hold. */
  ghost predicate HappensApart(s: State, ev: Event, t: State) {
    Happens(s, ev, t) && Wired(s) && (ev.Subscribed? ==> NewStatus(s, ev.org, ev.onStatus))
  }

  ghost predicate LeadsApart(s: State, evs: seq<Event>, t: State)
    decreases |evs|
  {
    if evs == [] then t == s
    else
      var last := |evs| - 1;
      exists before :: LeadsApart(s, evs[..last], before) && HappensApart(before, evs[last], t)
  }

  // ---- Each operation ----

  /** What a subscription does to the callbacks of a channel that was there, and to the subscriptions. */
  lemma SubscribeStatus(s: State, org: string, event: string, h: Handler, onStatus: Option<Handler>, e: EntryId)
    requires Inv(s) && org != "" && event != "" && e < |s.entries|
    ensures var t := Subscribe(s, org, event, h, onStatus);
      && e < |t.entries|
      && t.entries[e].statusHandlers == s.entries[e].statusHandlers +
           (if org in s.channels && s.channels[org] == e then AsSet(onStatus) else {})
  {
  }

  lemma NewSub(s: State, org: string, event: string, h: Handler, onStatus: Option<Handler>)
    requires Inv(s) && org != "" && event != ""
    ensures var t := Subscribe(s, org, event, h, onStatus); var n := |s.subs|;
      && t.subs[..n] == s.subs && |t.subs| == n + 1 && t.subs[n].onStatus == onStatus
      && t.subs[n].entry == (if org in s.channels then s.channels[org] else |s.entries|)
      && Informed(t, n)
      && (forall k: nat :: Live(t, k) <==> Live(s, k) || k == n)
  {
    EnsureKeepsInv(s, org);
    var s1 := Ensure(s, org);
    InvParts(s1);
    JoinKeepsWires(s1, s1.channels[org], event, h, onStatus);
  }

  lemma SubscribeKeepsInformed(s: State, org: string, event: string, h: Handler, onStatus: Option<Handler>, k: nat)
    requires Inv(s) && Wired(s) && AllInformed(s) && org != "" && event != ""
    ensures var t := Subscribe(s, org, event, h, onStatus); Live(t, k) ==> Informed(t, k)
  {
    hide Inv, Subscribe, Wired;
    NewSub(s, org, event, h, onStatus);
    if Live(s, k) {
      var t := Subscribe(s, org, event, h, onStatus);
      assert Informed(s, k) && t.subs[k] == t.subs[..|s.subs|][k];
      SubscribeStatus(s, org, event, h, onStatus, s.subs[k].entry);
    }
  }

  lemma SubscribeKeepsDistinct(s: State, org: string, event: string, h: Handler, onStatus: Option<Handler>)
    requires Inv(s) && Wired(s) && AllInformed(s) && DistinctStatus(s) && org != "" && event != ""
    requires NewStatus(s, org, onStatus)
    ensures DistinctStatus(Subscribe(s, org, event, h, onStatus))
  {
    hide Inv, Subscribe, Wired;
    NewSub(s, org, event, h, onStatus);
    var t, n := Subscribe(s, org, event, h, onStatus), |s.subs|;
    forall k: nat | Live(s, k) ensures t.subs[k] == s.subs[k] && !SharesStatus(s.subs[k], t.subs[n]) {
      assert Informed(s, k) && t.subs[k] == t.subs[..n][k];
    }
  }

  lemma SubscribeKeepsApart(s: State, org: string, event: string, h: Handler, onStatus: Option<Handler>)
    requires Apart(s) && NewHandler(s, org, event, h) && Wired(s) && NewStatus(s, org, onStatus)
    ensures Apart(Subscribe(s, org, event, h, onStatus))
  {
    SubscribeKeepsGood(s, org, event, h, onStatus);
    if org != "" && event != "" {
      hide Inv, Subscribe, Wired, NewHandler, NewStatus, Informed, DistinctStatus, NoIdle;
      SubscribeKeepsDistinct(s, org, event, h, onStatus);
      forall k: nat | Live(Subscribe(s, org, event, h, onStatus), k)
        ensures Informed(Subscribe(s, org, event, h, onStatus), k)
      {
        SubscribeKeepsInformed(s, org, event, h, onStatus, k);
      }
    }
  }

  lemma GoodParts(s: State)
    requires Good(s)
    ensures Inv(s) && Wired(s) && NoIdle(s)
  {
  }

  lemma UnsubscribeKeepsApart(s: State, k: nat)
    requires Apart(s) && Wired(s) && k < |s.subs|
    ensures Apart(Unsubscribe(s, k))
  {
    UnsubscribeKeepsGood(s, k);
    var t := Unsubscribe(s, k);
    if s.subs[k].active {
      hide Good, Wired, Unsubscribe;
      forall j: nat | Live(t, j) ensures t.subs[j] == s.subs[j] && Informed(t, j) {
        SameSubs(s, k, j);
        LeaveTakesStatus(s, k, s.subs[j].entry);
        assert Informed(s, j);
        assert Live(s, k) ==> !SharesStatus(s.subs[j], s.subs[k]);
        OnlyLiveEntriesShare(s, j, k) by { GoodParts(s); }
      }
    }
  }

  /** A subscription that is active on an open channel is live. */
  lemma OnlyLiveEntriesShare(s: State, j: nat, k: nat)
    requires Wired(s) && Live(s, j) && k < |s.subs| && s.subs[k].active
    ensures s.subs[k].entry == s.subs[j].entry ==> Live(s, k)
  {
  }

  lemma HappensKeepsApart(s: State, ev: Event, t: State)
    requires Apart(s) && HappensApart(s, ev, t)
    ensures Apart(t)
  {
    hide Inv, NoIdle, Wired, NewHandler, NewStatus, AllInformed, DistinctStatus;
    match ev
    case Subscribed(org, event, h, onStatus) => SubscribeKeepsApart(s, org, event, h, onStatus);
    case Unsubscribed(k) => UnsubscribeKeepsApart(s, k);
    case DisconnectedAll(order) => NothingLiveIsApart(s, order, t);
  }

  lemma NothingLiveIsApart(s: State, order: seq<string>, t: State)
    requires Good(s) && Lists(order, s.channels.Keys) && CutInOrder(s, order, t)
    ensures Apart(t)
  {
    hide Inv, NoIdle, CutInOrder, Lists, Informed;
    DisconnectAllKeepsGood(s, order, t);
    DisconnectAllEndsAll(s, order, t);
  }

  lemma {:induction false} LeadsKeepsApart(s: State, evs: seq<Event>, t: State)
    requires Apart(s) && LeadsApart(s, evs, t)
    ensures Apart(t) && Leads(s, evs, t)
    decreases |evs|
  {
    if evs != [] {
      hide Apart, Happens, NewStatus, Wired;
      var last := |evs| - 1;
      var before :| LeadsApart(s, evs[..last], before) && HappensApart(before, evs[last], t);
      LeadsKeepsApart(s, evs[..last], before);
      HappensKeepsApart(before, evs[last], t);
    }
  }

  // ---- Whole runs ----

  lemma NothingIsApart()
    ensures Apart(NOTHING)
  {
  }

  /** An open channel holds exactly the status callbacks of its live subscriptions. */
  lemma StatusHeldExactly(evs: seq<Event>, s: State, e: EntryId, h: Handler)
    requires LeadsApart(NOTHING, evs, s) && Open(s, e)
    ensures h in s.entries[e].statusHandlers <==>
            exists k: nat :: Live(s, k) && s.subs[k].entry == e && s.subs[k].onStatus == Some(h)
  {
    NothingIsApart();
    LeadsKeepsApart(NOTHING, evs, s);
    GoodParts(s);
    assert StatusBacked(s, e, h);
    if k: nat :| Live(s, k) && s.subs[k].entry == e && s.subs[k].onStatus == Some(h) {
      assert Informed(s, k);
    }
  }

  /** Whoever was subscribed keeps getting events and status changes until ended, whatever else happens. */
  ghost predicate AllHearUntilEnded(s: State, joined: State) {
    forall k: nat, evs: seq<Event>, t: State ::
      Live(s, k) && LeadsApart(joined, evs, t) && Undisturbed(evs, k) ==> Served(t, k) && Informed(t, k)
  }

  /** A new subscription leaves it so that all others keep getting their events and status changes until
      they are ended, exactly when its handler and its status callback, if any, are new. */
  lemma HeardUntilEndedExactly(before: seq<Event>, s: State,
                               org: string, event: string, h: Handler, onStatus: Option<Handler>)
    requires LeadsApart(NOTHING, before, s) && org != "" && event != ""
    ensures Wired(s)
    ensures AllHearUntilEnded(s, Subscribe(s, org, event, h, onStatus)) <==>
            NewHandler(s, org, event, h) && NewStatus(s, org, onStatus)
  {
    NothingIsApart();
    LeadsKeepsApart(NOTHING, before, s);
    GoodParts(s);
    hide Apart, Good, Inv, Subscribe, Wired, LeadsApart, NewStatus, NewHandler;
    var joined := Subscribe(s, org, event, h, onStatus);
    if NewHandler(s, org, event, h) && NewStatus(s, org, onStatus) {
      hide Served, Informed, Undisturbed, Live;
      forall k: nat, evs: seq<Event>, t: State | Live(s, k) && LeadsApart(joined, evs, t) && Undisturbed(evs, k)
        ensures Served(t, k) && Informed(t, k)
      {
        HeardAfterNew(s, org, event, h, onStatus, k, evs, t);
      }
    } else {
      RepeatBreaks(s, org, event, h, onStatus);
    }
  }

  /** A handler or callback used twice is lost to others when the newcomer leaves. */
  lemma RepeatBreaks(s: State, org: string, event: string, h: Handler, onStatus: Option<Handler>)
    requires Inv(s) && Wired(s) && org != "" && event != ""
    requires !NewHandler(s, org, event, h) || !NewStatus(s, org, onStatus)
    ensures !AllHearUntilEnded(s, Subscribe(s, org, event, h, onStatus))
  {
    var joined := Subscribe(s, org, event, h, onStatus);
    SubscribeKeepsWires(s, org, event, h, onStatus);
    hide Inv, Subscribe, Wired, LeadsApart, Served, Informed, Undisturbed, NewStatus, Unsubscribe;
    var k: nat;
    if NewHandler(s, org, event, h) {
      k := SecondStatusLost(s, org, event, h, onStatus);
    } else {
      k :| Live(s, k) && s.subs[k].org == org && s.subs[k].event == event && s.subs[k].handler == h;
      SecondVisitTakes(s, k, onStatus);
    }
    LeavingLeadsApart(joined, |s.subs|, k);
  }

  lemma HeardAfterNew(s: State, org: string, event: string, h: Handler, onStatus: Option<Handler>,
                      k: nat, evs: seq<Event>, t: State)
    requires Apart(s) && Wired(s) && NewHandler(s, org, event, h) && NewStatus(s, org, onStatus)
    requires org != "" && event != "" && Live(s, k)
    requires LeadsApart(Subscribe(s, org, event, h, onStatus), evs, t) && Undisturbed(evs, k)
    ensures Served(t, k) && Informed(t, k)
  {
    SubscribeKeepsApart(s, org, event, h, onStatus);
    SubscribeKeepsLive(s, org, event, h, onStatus, k);
    hide Inv, Subscribe, Wired, LeadsApart, Leads, Served, Informed, Undisturbed, NewHandler, NewStatus, Live, NoIdle;
    var joined := Subscribe(s, org, event, h, onStatus);
    LeadsKeepsApart(joined, evs, t);
    LiveUntilEnded(joined, evs, t, k);
    LiveIsServed(t, k);
  }

  /** Whoever's callback the visitor used loses it when the visitor leaves. */
  lemma SecondStatusLost(s: State, org: string, event: string, h: Handler, onStatus: Option<Handler>)
    returns (k: nat)
    requires Inv(s) && org != "" && event != "" && !NewStatus(s, org, onStatus)
    requires var joined := Subscribe(s, org, event, h, onStatus); Wired(joined) && |joined.subs| == |s.subs| + 1
    ensures Live(s, k) && k < |s.subs|
    ensures !Informed(Unsubscribe(Subscribe(s, org, event, h, onStatus), |s.subs|), k)
  {
    var e := s.channels[org];
    assert onStatus.Some? && onStatus.value in s.entries[e].statusHandlers;
    assert StatusBacked(s, e, onStatus.value);
    k :| Live(s, k) && s.subs[k].entry == e && s.subs[k].onStatus == onStatus;
    StatusAfterVisit(s, org, event, h, onStatus, e);
    NewSub(s, org, event, h, onStatus);
    hide Inv, Wired, Subscribe, Unsubscribe;
    var joined := Subscribe(s, org, event, h, onStatus);
    assert joined.subs[k] == s.subs[k];
    SubscribeKeepsLive(s, org, event, h, onStatus, k);
    SameSubs(joined, |s.subs|, k);
  }

  lemma LeavingLeadsApart(s: State, k: nat, other: nat)
    requires Wired(s) && k < |s.subs| && other != k
    ensures LeadsApart(s, [Unsubscribed(k)], Unsubscribe(s, k)) && Undisturbed([Unsubscribed(k)], other)
  {
    hide Wired, Unsubscribe, Subscribe, NewHandler, NewStatus, CutInOrder, Lists;
    var evs := [Unsubscribed(k)];
    assert evs[..0] == [] && LeadsApart(s, evs[..0], s);
    assert HappensApart(s, evs[0], Unsubscribe(s, k));
  }
}
