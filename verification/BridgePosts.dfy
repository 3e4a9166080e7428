/** Everything a bridge posts and calls, in order, told from its inputs alone. */
module BridgePosts {
  import opened Wrappers
  import opened Columns
  import opened HostBridge
  import opened BridgeRuns

  /** A message of the plugin: a sandboxed one is known by its window, another by its origin. */
  predicate FromPlugin(c: Config, i: Input) {
    i.Arrives? && ((c.sandboxed && i.source == c.target) || (!c.sandboxed && i.origin == c.pluginOrigin))
  }

  predicate Signals(c: Config, i: Input) { FromPlugin(c, i) && i.message.Ready? }

  predicate Signalled(c: Config, inputs: seq<Input>) {
    exists i :: 0 <= i < |inputs| && Signals(c, inputs[i])
  }

  lemma {:induction false} SignalledIsReady(c: Config, inputs: seq<Input>)
    ensures Signalled(c, inputs) <==> ReadyIn(c, inputs)
  {
    if inputs != [] {
      var front := inputs[..|inputs| - 1];
      SignalledIsReady(c, front);
      assert forall i :: 0 <= i < |front| ==> front[i] == inputs[i];
      if i :| 0 <= i < |inputs| && Signals(c, inputs[i]) {
        assert i < |front| ==> Signals(c, front[i]);
      }
      if i :| 0 <= i < |front| && Signals(c, front[i]) {
        assert Signals(c, inputs[i]);
      }
    }
  }

  // ---- Posts ----

  /** The latest hello, advertising the host's version unless it brings its own. */
  function HelloDue(c: Config, inputs: seq<Input>): seq<HostMessage> {
    match LastHello(inputs)
    case None => []
    case Some(Hello(Some(version), body)) => [HostHello(version, body)]
    case Some(Hello(None, body)) => [HostHello(c.version, body)]
  }

  /** What a channel holds back: the latest value, until the first ready signal. */
  function HeldBack(c: Config, inputs: seq<Input>, ch: Channel): seq<HostMessage> {
    if Signalled(c, inputs) || LastSent(inputs, ch).None? then [] else [Change(ch, LastSent(inputs, ch).value)]
  }

  /** How many saves were asked for. */
  function SaveCount(inputs: seq<Input>): nat {
    if inputs == [] then 0
    else SaveCount(inputs[..|inputs| - 1]) + if inputs[|inputs| - 1].RequestSave? then 1 else 0
  }

  /** What the last input makes the bridge post. */
  function PostsFor(c: Config, inputs: seq<Input>): seq<HostMessage>
    requires inputs != []
  {
    var (front, last) := (inputs[..|inputs| - 1], inputs[|inputs| - 1]);
    match last
    case Arrives(_, _, m) =>
      if !FromPlugin(c, last) then []
      else if m.Ready? then HelloDue(c, front) + HeldBack(c, front, Theme) + HeldBack(c, front, Locale)
      else if m.RpcRequest? && !c.hasForwarder then [RpcResponse(m.id, false, "no-forwarder")]
      else []
    case SendHello(_) => if Signalled(c, front) then HelloDue(c, inputs) else []
    case Send(ch, value) => if Signalled(c, front) then [Change(ch, value)] else []
    case RequestSave(now) => [Save("save-" + Decimal(SaveCount(inputs)) + "-" + Decimal(now))]
    case RpcSettles(id, ok, body) => [RpcResponse(id, ok, body)]
    case OnReady(_) => []
    case Listen(_, _) => []
  }

  /** To a plugin's own origin, or to any for a sandboxed one. */
  function Addressed(c: Config, messages: seq<HostMessage>): seq<Post> {
    seq(|messages|, i requires 0 <= i < |messages| =>
      Post(messages[i], match c.sandboxed case true => "*" case false => c.pluginOrigin))
  }

  function PostsDue(c: Config, inputs: seq<Input>): seq<Post> {
    if inputs == [] then [] else PostsDue(c, inputs[..|inputs| - 1]) + Addressed(c, PostsFor(c, inputs))
  }

  /** The fields posting depends on, told from the inputs. */
  ghost predicate Holds(c: Config, inputs: seq<Input>, b: Bridge) {
    && b.ready == Signalled(c, inputs)
    && b.pending.hello == LastHello(inputs)
    && (forall ch :: PendingOn(b.pending, ch) == if Signalled(c, inputs) then None else LastSent(inputs, ch))
    && b.saveSeq == SaveCount(inputs)
  }

  lemma AddressedConcat(c: Config, a: seq<HostMessage>, b: seq<HostMessage>)
    ensures Addressed(c, a + b) == Addressed(c, a) + Addressed(c, b)
  {
  }

  lemma PostingAdds(c: Config, b: Bridge, m: HostMessage)
    ensures Posting(c, b, m).posts == b.posts + Addressed(c, [m])
  {
  }

  lemma SignalledOneMore(c: Config, inputs: seq<Input>)
    requires inputs != []
    ensures Signalled(c, inputs) <==> Signalled(c, inputs[..|inputs| - 1]) || Signals(c, inputs[|inputs| - 1])
  {
    hide Signals;
    var n := |inputs| - 1;
    assert forall i :: 0 <= i < n ==> inputs[..n][i] == inputs[i];
    if i :| 0 <= i < |inputs| && Signals(c, inputs[i]) {
      assert i < n ==> Signals(c, inputs[..n][i]);
    }
    if i :| 0 <= i < n && Signals(c, inputs[..n][i]) {
      assert Signals(c, inputs[i]);
    }
  }

  lemma HelloGoesOut(c: Config, inputs: seq<Input>, b: Bridge)
    requires b.ready && b.pending.hello == LastHello(inputs)
    ensures FlushHello(c, b) == b.(posts := b.posts + Addressed(c, HelloDue(c, inputs)))
  {
  }

  lemma ChangeGoesOut(c: Config, b: Bridge, ch: Channel)
    requires b.ready
    ensures var held := PendingOn(b.pending, ch);
      Flush(c, b, ch) ==
      b.(posts := b.posts + Addressed(c, if held.Some? then [Change(ch, held.value)] else []),
         pending := if held.Some? then WithPending(b.pending, ch, None) else b.pending)
  {
  }

  /** The greeting: hello, then theme, then locale. */
  lemma GreetingGoesOut(c: Config, front: seq<Input>, b: Bridge, protocol: Option<nat>)
    requires Holds(c, front, b)
    ensures var after := OnMessage(c, b, Ready(protocol));
      && after.posts == b.posts +
           Addressed(c, HelloDue(c, front) + HeldBack(c, front, Theme) + HeldBack(c, front, Locale))
      && after.ready && after.pending.hello == b.pending.hello && after.saveSeq == b.saveSeq
      && after.pending.theme == None && after.pending.locale == None
  {
    hide Addressed, FlushHello, Flush;
    var b1 := b.(ready := true, protocol := Some(if protocol.Some? then protocol.value else 1));
    HelloGoesOut(c, front, b1);
    var b2 := FlushHello(c, b1);
    ChangeGoesOut(c, b2, Theme);
    var b3 := Flush(c, b2, Theme);
    ChangeGoesOut(c, b3, Locale);
    assert PendingOn(b.pending, Theme) == b.pending.theme && PendingOn(b.pending, Locale) == b.pending.locale;
    AddressedConcat(c, HelloDue(c, front), HeldBack(c, front, Theme));
    AddressedConcat(c, HelloDue(c, front) + HeldBack(c, front, Theme), HeldBack(c, front, Locale));
  }

  lemma SignalPosts(c: Config, inputs: seq<Input>, b: Bridge)
    requires inputs != [] && Signals(c, inputs[|inputs| - 1]) && Holds(c, inputs[..|inputs| - 1], b)
    ensures Step(c, b, inputs[|inputs| - 1]).posts == b.posts + Addressed(c, PostsFor(c, inputs))
    ensures Holds(c, inputs, Step(c, b, inputs[|inputs| - 1]))
  {
    var (front, last) := (inputs[..|inputs| - 1], inputs[|inputs| - 1]);
    SignalledOneMore(c, inputs);
    hide Signalled, OnMessage, Addressed;
    GreetingGoesOut(c, front, b, last.message.protocol);
  }

  lemma ArrivalPosts(c: Config, inputs: seq<Input>, b: Bridge)
    requires inputs != [] && inputs[|inputs| - 1].Arrives? && Holds(c, inputs[..|inputs| - 1], b)
    ensures Step(c, b, inputs[|inputs| - 1]).posts == b.posts + Addressed(c, PostsFor(c, inputs))
    ensures Holds(c, inputs, Step(c, b, inputs[|inputs| - 1]))
  {
    var last := inputs[|inputs| - 1];
    if Signals(c, last) {
      SignalPosts(c, inputs, b);
    } else {
      SignalledOneMore(c, inputs);
      hide Signalled, CallsTo, FlushHello, Flush, Greet;
    }
  }

  /** What was sent last on each channel, one input later. */
  lemma LastSentOneMore(inputs: seq<Input>)
    requires inputs != []
    ensures var (front, last) := (inputs[..|inputs| - 1], inputs[|inputs| - 1]);
      && (forall ch :: LastSent(inputs, ch) ==
            if last.Send? && last.channel == ch then Some(last.value) else LastSent(front, ch))
      && (forall t :: HandlersOn(inputs, t) ==
            HandlersOn(front, t) + if last.Listen? && last.topic == t then [last.handler] else [])
  {
  }

  lemma SendPosts(c: Config, inputs: seq<Input>, b: Bridge)
    requires inputs != [] && Holds(c, inputs[..|inputs| - 1], b)
    requires inputs[|inputs| - 1].Send?
    ensures Step(c, b, inputs[|inputs| - 1]).posts == b.posts + Addressed(c, PostsFor(c, inputs))
    ensures Holds(c, inputs, Step(c, b, inputs[|inputs| - 1]))
  {
    var last := inputs[|inputs| - 1];
    LastSentOneMore(inputs);
    SignalledOneMore(c, inputs);
    hide Signalled, Flush, Addressed;
    var held := b.(pending := WithPending(b.pending, last.channel, Some(last.value)));
    var after := Step(c, b, last);
    assert forall ch :: PendingOn(held.pending, ch) ==
                        if ch == last.channel then Some(last.value) else PendingOn(b.pending, ch);
    if b.ready {
      ChangeGoesOut(c, held, last.channel);
      assert forall ch :: PendingOn(after.pending, ch) ==
                          if ch == last.channel then None else PendingOn(held.pending, ch);
    } else {
      NothingGoesOut(c, held, last.channel);
    }
  }

  lemma NothingGoesOut(c: Config, b: Bridge, ch: Channel)
    requires !b.ready
    ensures Flush(c, b, ch) == b && FlushHello(c, b) == b
    ensures b.posts + Addressed(c, []) == b.posts
  {
  }

  lemma HelloPosts(c: Config, inputs: seq<Input>, b: Bridge)
    requires inputs != [] && Holds(c, inputs[..|inputs| - 1], b)
    requires inputs[|inputs| - 1].SendHello?
    ensures Step(c, b, inputs[|inputs| - 1]).posts == b.posts + Addressed(c, PostsFor(c, inputs))
    ensures Holds(c, inputs, Step(c, b, inputs[|inputs| - 1]))
  {
    var last := inputs[|inputs| - 1];
    LastSentOneMore(inputs);
    SignalledOneMore(c, inputs);
    hide Signalled, FlushHello, Addressed;
    var held := b.(pending := b.pending.(hello := Some(last.hello)));
    assert forall ch :: PendingOn(held.pending, ch) == PendingOn(b.pending, ch);
    if b.ready {
      HelloGoesOut(c, inputs, held);
    } else {
      NothingGoesOut(c, held, Theme);
    }
  }

  lemma OtherPosts(c: Config, inputs: seq<Input>, b: Bridge)
    requires inputs != [] && Holds(c, inputs[..|inputs| - 1], b)
    requires var i := inputs[|inputs| - 1]; i.OnReady? || i.Listen? || i.RequestSave? || i.RpcSettles?
    ensures Step(c, b, inputs[|inputs| - 1]).posts == b.posts + Addressed(c, PostsFor(c, inputs))
    ensures Holds(c, inputs, Step(c, b, inputs[|inputs| - 1]))
  {
    LastSentOneMore(inputs);
    SignalledOneMore(c, inputs);
    hide Signalled;
  }

  /** After any inputs the bridge has posted exactly what is due for each of them, in order: at a signal the
      hello and what was held back; later hellos and changes at once; saves, numbered; replies. */
  lemma {:induction false} PostsExactly(c: Config, inputs: seq<Input>)
    ensures Play(c, inputs).posts == PostsDue(c, inputs)
    ensures Holds(c, inputs, Play(c, inputs))
  {
    if inputs != [] {
      hide Holds, Step, PostsFor, Addressed;
      var front := inputs[..|inputs| - 1];
      PostsExactly(c, front);
      match inputs[|inputs| - 1]
      case Arrives(_, _, _) => ArrivalPosts(c, inputs, Play(c, front));
      case SendHello(_) => HelloPosts(c, inputs, Play(c, front));
      case Send(_, _) => SendPosts(c, inputs, Play(c, front));
      case _ => OtherPosts(c, inputs, Play(c, front));
    }
  }

  // ---- Calls ----

  /** The handlers registered for a topic, in order. */
  function HandlersOn(inputs: seq<Input>, t: Topic): seq<nat> {
    if inputs == [] then []
    else
      var last := inputs[|inputs| - 1];
      HandlersOn(inputs[..|inputs| - 1], t) + if last.Listen? && last.topic == t then [last.handler] else []
  }

  /** The calls due: for each message of the plugin, its topic's handlers with what it says. */
  function CallsDue(c: Config, inputs: seq<Input>): seq<Call> {
    if inputs == [] then []
    else
      var (front, last) := (inputs[..|inputs| - 1], inputs[|inputs| - 1]);
      CallsDue(c, front) +
      if FromPlugin(c, last) && last.message.News? then
        var handlers := HandlersOn(front, last.message.topic);
        seq(|handlers|, i requires 0 <= i < |handlers| => Call(handlers[i], last.message.body))
      else []
  }

  /** The protocol version the plugin's latest signal brought; one that brings none counts as 1. */
  function ProtocolDue(c: Config, inputs: seq<Input>): Option<nat> {
    if inputs == [] then None
    else
      var last := inputs[|inputs| - 1];
      if !Signals(c, last) then ProtocolDue(c, inputs[..|inputs| - 1])
      else
        match last.message.protocol
        case None => Some(1)
        case Some(version) => Some(version)
  }

  lemma FlushesCallNobody(c: Config, b: Bridge)
    ensures forall ch :: Flush(c, b, ch) == b.(posts := Flush(c, b, ch).posts, pending := Flush(c, b, ch).pending)
    ensures FlushHello(c, b) == b.(posts := FlushHello(c, b).posts)
  {
  }

  lemma ReadyCallsNobody(c: Config, b: Bridge, protocol: Option<nat>)
    ensures var after := OnMessage(c, b, Ready(protocol));
      after.calls == b.calls && after.listeners == b.listeners &&
      after.protocol == match protocol case None => Some(1) case Some(version) => Some(version)
  {
    var b1 := b.(ready := true, protocol := Some(if protocol.Some? then protocol.value else 1));
    FlushesCallNobody(c, b1);
    FlushesCallNobody(c, FlushHello(c, b1));
    FlushesCallNobody(c, Flush(c, FlushHello(c, b1), Theme));
    hide FlushHello, Flush;
  }

  ghost predicate CallsAre(c: Config, inputs: seq<Input>, b: Bridge) {
    && b.calls == CallsDue(c, inputs) && b.protocol == ProtocolDue(c, inputs)
    && forall t :: HandlersOf(b.listeners, t) == HandlersOn(inputs, t)
  }

  lemma ArrivalCalls(c: Config, inputs: seq<Input>, b: Bridge)
    requires inputs != [] && inputs[|inputs| - 1].Arrives? && CallsAre(c, inputs[..|inputs| - 1], b)
    ensures CallsAre(c, inputs, Step(c, b, inputs[|inputs| - 1]))
  {
    hide FlushHello, Flush, HandlersOf;
    var last := inputs[|inputs| - 1];
    if FromPlugin(c, last) && last.message.Ready? {
      hide OnMessage;
      ReadyCallsNobody(c, b, last.message.protocol);
    }
  }

  lemma ListenCalls(c: Config, inputs: seq<Input>, b: Bridge)
    requires inputs != [] && inputs[|inputs| - 1].Listen? && CallsAre(c, inputs[..|inputs| - 1], b)
    ensures CallsAre(c, inputs, Step(c, b, inputs[|inputs| - 1]))
  {
    LastSentOneMore(inputs);
    hide HandlersOn;
  }

  lemma CallsCarryOver(c: Config, inputs: seq<Input>, b: Bridge, after: Bridge)
    requires inputs != [] && CallsAre(c, inputs[..|inputs| - 1], b)
    requires !inputs[|inputs| - 1].Arrives? && !inputs[|inputs| - 1].Listen?
    requires after.calls == b.calls && after.protocol == b.protocol && after.listeners.resize == b.listeners.resize
    requires after.listeners.notify == b.listeners.notify && after.listeners.dirty == b.listeners.dirty
    requires after.listeners.save == b.listeners.save
    ensures CallsAre(c, inputs, after)
  {
    LastSentOneMore(inputs);
    hide HandlersOn;
  }

  lemma OtherCalls(c: Config, inputs: seq<Input>, b: Bridge)
    requires inputs != [] && CallsAre(c, inputs[..|inputs| - 1], b)
    requires !inputs[|inputs| - 1].Arrives? && !inputs[|inputs| - 1].Listen?
    ensures CallsAre(c, inputs, Step(c, b, inputs[|inputs| - 1]))
  {
    hide CallsAre, FlushHello, Flush, SaveId;
    match inputs[|inputs| - 1] {
      case SendHello(h) => FlushesCallNobody(c, b.(pending := b.pending.(hello := Some(h))));
      case Send(ch, value) => FlushesCallNobody(c, b.(pending := WithPending(b.pending, ch, Some(value))));
      case _ =>
    }
    CallsCarryOver(c, inputs, b, Step(c, b, inputs[|inputs| - 1]));
  }

  /** After any inputs exactly the calls due were made, in order, and the protocol version is the latest. */
  lemma {:induction false} CallsExactly(c: Config, inputs: seq<Input>)
    ensures var b := Play(c, inputs);
      && b.calls == CallsDue(c, inputs) && b.protocol == ProtocolDue(c, inputs)
      && forall t :: HandlersOf(b.listeners, t) == HandlersOn(inputs, t)
  {
    hide Step, CallsDue, ProtocolDue, HandlersOn, HandlersOf;
    if inputs == [] {
      NothingYet(c);
    } else {
      var front := inputs[..|inputs| - 1];
      CallsExactly(c, front);
      match inputs[|inputs| - 1]
      case Arrives(_, _, _) => ArrivalCalls(c, inputs, Play(c, front));
      case Listen(_, _) => ListenCalls(c, inputs, Play(c, front));
      case _ => OtherCalls(c, inputs, Play(c, front));
    }
  }

  lemma NothingYet(c: Config)
    ensures CallsDue(c, []) == [] && ProtocolDue(c, []) == None && forall t :: HandlersOn([], t) == []
    ensures forall t :: HandlersOf(FRESH.listeners, t) == []
  {
  }
}
