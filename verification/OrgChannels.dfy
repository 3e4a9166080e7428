/** The module itself: its map of channels and the objects its closures share (src/lib/realtime/org-events.ts). */
module OrgChannels {
  import opened Wrappers
  import opened OrgEvents
  import opened OrgRealtime

  class OrgChannelRegistry {
    var channels: map<string, EntryId>
    var entries: seq<Entry>
    var sets: seq<HandlerSet>
    var subs: seq<Sub>
    var removed: seq<EntryId>

    constructor ()
      ensures View() == NOTHING
    {
      channels, entries, sets, subs, removed := map[], [], [], [], [];
    }

    function View(): State reads this { State(channels, entries, sets, subs, removed) }

    method EnsureOrgChannel(org: string) returns (e: EntryId)
      modifies this
      ensures View() == Ensure(old(View()), org) && org in channels && e == channels[org]
    {
      if org in channels {
        return channels[org];
      }
      e := |entries|;
      entries := entries + [Entry(org, map[], {}, false)];
      channels := channels[org := e];
    }

    method ReleaseOrgChannel(org: string, e: EntryId)
      requires e < |entries| && EntryWired(View(), e)
      modifies this
      ensures View() == Release(old(View()), org, e)
    {
      var s := View();
      if HasHandlers(s, e) || entries[e].statusHandlers != {} {
        return;
      }
      if !(org in channels && channels[org] == e) {
        return;
      }
      entries := entries[e := entries[e].(closed := true)];
      channels := channels - {org};
      removed := removed + [e];
    }

    method SubscribeOrgBroadcast(org: string, event: string, h: Handler, onStatus: Option<Handler>)
      requires Wired(View())
      modifies this
      ensures View() == Subscribe(old(View()), org, event, h, onStatus)
    {
      if |org| == 0 || |event| == 0 {
        return;
      }
      EnsureKeepsWires(View(), org);
      var e := EnsureOrgChannel(org);
      var entry := entries[e];
      assert EntryWired(View(), e);
      var id;
      if event in entry.handlers {
        id := entry.handlers[event];
        sets := sets[id := sets[id].(members := sets[id].members + {h})];
      } else {
        id := |sets|;
        sets := sets + [HandlerSet({h}, e, event)];
      }
      entry := entry.(handlers := entry.handlers[event := id]);
      assert entry.statusHandlers + {} == entry.statusHandlers;
      if onStatus.Some? {
        entry := entry.(statusHandlers := entry.statusHandlers + {onStatus.value});
      }
      entries := entries[e := entry];
      subs := subs + [Sub(entry.org, event, h, onStatus, e, id, true)];
    }

    method EndSubscription(k: nat)
      requires Wired(View()) && k < |subs|
      modifies this
      ensures View() == Unsubscribe(old(View()), k)
    {
      var sub := subs[k];
      if !sub.active {
        return;
      }
      ghost var was := View();
      assert SubWired(was, k) && entries[sub.entry].statusHandlers - {} == entries[sub.entry].statusHandlers;
      subs := subs[k := sub.(active := false)];
      var left := sets[sub.handlers].members - {sub.handler};
      sets := sets[sub.handlers := sets[sub.handlers].(members := left)];
      var entry := entries[sub.entry];
      if left == {} {
        entry := entry.(handlers := entry.handlers - {sub.event});
      }
      if sub.onStatus.Some? {
        entry := entry.(statusHandlers := entry.statusHandlers - {sub.onStatus.value});
      }
      entries := entries[sub.entry := entry];
      assert View() == Leave(was, k);
      ReleaseOrgChannel(sub.org, sub.entry);
    }

    method DisconnectOrgRealtime() returns (ghost order: seq<string>)
      requires Good(View())
      modifies this
      ensures Lists(order, old(channels).Keys) && CutInOrder(old(View()), order, View())
    {
      hide Underway, Good, DisconnectOne, Wired, CutInOrder, Lists;
      order := [];
      ghost var was := View();
      NotYetUnderway(was);
      while channels.Keys != {}
        invariant Underway(was, order, View())
        decreases channels.Keys
      {
        var org :| org in channels;
        StillUnderway(was, order, View(), org);
        Disconnect(org);
        order := order + [org];
      }
      AllDone(was, order, View());
    }

    method Disconnect(org: string)
      requires Good(View()) && org in channels
      modifies this
      ensures View() == DisconnectOne(old(View()), org)
    {
      var e := channels[org];
      InvParts(View());
      ghost var was := View();
      entries := entries[e := entries[e].(handlers := map[], statusHandlers := {})];
      ReleaseOrgChannel(org, e);
    }
  }

  /** Part way through disconnecting, from `was`. */
  ghost predicate Underway(was: State, order: seq<string>, s: State) {
    && Good(s) && CutInOrder(was, order, s)
    && (forall i, j :: 0 <= i < j < |order| ==> order[i] != order[j])
    && (forall org :: org in was.channels <==> org in s.channels || org in order)
    && (forall org :: org in order ==> org !in s.channels)
  }

  lemma NotYetUnderway(s: State)
    requires Good(s)
    ensures Underway(s, [], s)
  {
  }

  lemma AllDone(was: State, order: seq<string>, s: State)
    requires Underway(was, order, s) && s.channels.Keys == {}
    ensures Lists(order, was.channels.Keys) && CutInOrder(was, order, s)
  {
    hide Good, CutInOrder;
  }

  lemma StillUnderway(was: State, order: seq<string>, s: State, org: string)
    requires Underway(was, order, s) && org in s.channels
    ensures Good(s) && Wired(s) && DisconnectOne(s, org).channels.Keys < s.channels.Keys
    ensures Underway(was, order + [org], DisconnectOne(s, org))
  {
    hide Good, DisconnectOne, Wired, CutInOrder;
    CutOne(s, org);
    CutOneMore(was, order, s, org);
    DisconnectOneKeepsGood(s, org);
    assert org !in DisconnectOne(s, org).channels;
  }

  lemma EnsureKeepsWires(s: State, org: string)
    requires Wired(s)
    ensures Wired(Ensure(s, org))
  {
    var s' := Ensure(s, org);
    forall e: nat | e < |s'.entries| ensures EntryWired(s', e) {
      assert e < |s.entries| ==> EntryWired(s, e);
    }
    forall k: nat | k < |s'.subs| ensures SubWired(s', k) {
      assert SubWired(s, k);
    }
  }

  lemma CutOne(s: State, org: string)
    requires Good(s) && org in s.channels
    ensures Wired(s) && DisconnectOne(s, org).channels == s.channels - {org}
  {
    DisconnectOneShape(s, org);
  }

  lemma {:induction false} CutOneMore(s: State, order: seq<string>, s': State, org: string)
    requires CutInOrder(s, order, s') && Wired(s') && org in s'.channels
    ensures CutInOrder(s, order + [org], DisconnectOne(s', org))
    decreases |order|
  {
    hide Wired, DisconnectOne;
    if order == [] {
      assert (order + [org])[1..] == [];
    } else {
      CutOneMore(DisconnectOne(s, order[0]), order[1..], s', org);
      assert (order + [org])[1..] == order[1..] + [org];
    }
  }
}
