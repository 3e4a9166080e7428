/** The host's side of the message bridge to a plugin's frame (src/lib/plugins/bridge-protocol.ts). */
module HostBridge {
  import opened Wrappers
  import opened Columns

  /** sandboxed peers are known by their window, others by their origin. */
  datatype Config = Config(target: nat, pluginOrigin: string, sandboxed: bool, hasForwarder: bool, version: nat)

  datatype Hello = Hello(version: Option<nat>, body: string)
  datatype Channel = Theme | Locale
  datatype Topic = Resize | Notify | DirtyChanged | SaveResult

  datatype PluginMessage =
    | Ready(protocol: Option<nat>)
    | News(topic: Topic, body: string)
    | RpcRequest(id: string, body: string)
    | Unknown

  datatype HostMessage =
    | HostHello(version: nat, body: string)
    | Change(channel: Channel, value: string)
    | Save(id: string)
    | RpcResponse(id: string, ok: bool, body: string)

  datatype Post = Post(message: HostMessage, targetOrigin: string)
  datatype Call = Call(handler: nat, body: string)

  /** What happens to a bridge: a window message arrives, its owner calls it, a forwarded request settles. */
  datatype Input =
    | Arrives(source: nat, origin: string, message: PluginMessage)
    | SendHello(hello: Hello)
    | Send(channel: Channel, value: string)
    | OnReady(handler: nat)
    | Listen(topic: Topic, handler: nat)
    | RequestSave(now: nat)
    | RpcSettles(id: string, ok: bool, body: string)

  datatype Pending = Pending(hello: Option<Hello>, theme: Option<string>, locale: Option<string>)
  datatype Listeners = Listeners(ready: seq<nat>, resize: seq<nat>, notify: seq<nat>, dirty: seq<nat>, save: seq<nat>)

  /** posts: what was posted; readied: the ready handlers called; calls: the other handlers called; open:
      the forwarded requests still waiting. */
  datatype Bridge = Bridge(pending: Pending, ready: bool, protocol: Option<nat>, listeners: Listeners, saveSeq: nat,
                           posts: seq<Post>, readied: seq<nat>, calls: seq<Call>, open: multiset<string>)

  const FRESH := Bridge(Pending(None, None, None), false, None, Listeners([], [], [], [], []), 0, [], [], [],
                        multiset{})

  predicate Accepts(c: Config, source: nat, origin: string) {
    if c.sandboxed then source == c.target else origin == c.pluginOrigin
  }

  function TargetOrigin(c: Config): string { if c.sandboxed then "*" else c.pluginOrigin }

  function Posting(c: Config, b: Bridge, m: HostMessage): Bridge {
    b.(posts := b.posts + [Post(m, TargetOrigin(c))])
  }

  function HelloMessage(c: Config, h: Hello): HostMessage {
    HostHello(if h.version.Some? then h.version.value else c.version, h.body)
  }

  function FlushHello(c: Config, b: Bridge): Bridge {
    if !b.ready || b.pending.hello.None? then b else Posting(c, b, HelloMessage(c, b.pending.hello.value))
  }

  function PendingOn(p: Pending, ch: Channel): Option<string> { if ch == Theme then p.theme else p.locale }

  function WithPending(p: Pending, ch: Channel, value: Option<string>): Pending {
    if ch == Theme then p.(theme := value) else p.(locale := value)
  }

  function Flush(c: Config, b: Bridge, ch: Channel): Bridge {
    if !b.ready || PendingOn(b.pending, ch).None? then b
    else
      Posting(c, b, Change(ch, PendingOn(b.pending, ch).value)).(pending := WithPending(b.pending, ch, None))
  }

  function HandlersOf(l: Listeners, t: Topic): seq<nat> {
    match t
    case Resize => l.resize
    case Notify => l.notify
    case DirtyChanged => l.dirty
    case SaveResult => l.save
  }

  function Adding(l: Listeners, t: Topic, h: nat): Listeners {
    match t
    case Resize => l.(resize := l.resize + [h])
    case Notify => l.(notify := l.notify + [h])
    case DirtyChanged => l.(dirty := l.dirty + [h])
    case SaveResult => l.(save := l.save + [h])
  }

  function CallsTo(handlers: seq<nat>, body: string): seq<Call> {
    seq(|handlers|, i requires 0 <= i < |handlers| => Call(handlers[i], body))
  }

  /** Everything held back goes out. */
  function Greet(c: Config, b: Bridge): Bridge { Flush(c, Flush(c, FlushHello(c, b), Theme), Locale) }

  function OnMessage(c: Config, b: Bridge, m: PluginMessage): Bridge {
    match m
    case Unknown => b
    case Ready(protocol) =>
      var b1 := b.(ready := true, protocol := Some(if protocol.Some? then protocol.value else 1));
      var b2 := Greet(c, b1);
      if b.ready then b2 else b2.(readied := b2.readied + b2.listeners.ready)
    case News(topic, body) => b.(calls := b.calls + CallsTo(HandlersOf(b.listeners, topic), body))
    case RpcRequest(id, _) =>
      if !c.hasForwarder then Posting(c, b, RpcResponse(id, false, "no-forwarder"))
      else b.(open := b.open + multiset{id})
  }

  function SaveId(n: nat, now: nat): string { "save-" + Decimal(n) + "-" + Decimal(now) }

  predicate CanHappen(b: Bridge, i: Input) { i.RpcSettles? ==> i.id in b.open }

  function Step(c: Config, b: Bridge, i: Input): Bridge {
    match i
    case Arrives(source, origin, m) => if Accepts(c, source, origin) then OnMessage(c, b, m) else b
    case SendHello(h) => FlushHello(c, b.(pending := b.pending.(hello := Some(h))))
    case Send(ch, value) => Flush(c, b.(pending := WithPending(b.pending, ch, Some(value))), ch)
    case OnReady(h) =>
      if b.ready then b.(readied := b.readied + [h])
      else b.(listeners := b.listeners.(ready := b.listeners.ready + [h]))
    case Listen(t, h) => b.(listeners := Adding(b.listeners, t, h))
    case RequestSave(now) => Posting(c, b.(saveSeq := b.saveSeq + 1), Save(SaveId(b.saveSeq + 1, now)))
    case RpcSettles(id, ok, body) => Posting(c, b.(open := b.open - multiset{id}), RpcResponse(id, ok, body))
  }

  // ---- The bridge itself ----

  class BridgeHost {
    const c: Config
    var pendingHello: Option<Hello>
    var pendingTheme: Option<string>
    var pendingLocale: Option<string>
    var pluginReady: bool
    var protocol: Option<nat>
    var listeners: Listeners
    var saveSeq: nat
    var posts: seq<Post>
    var readied: seq<nat>
    var calls: seq<Call>
    var open: multiset<string>

    constructor (c: Config)
      ensures View() == FRESH && this.c == c
    {
      this.c := c;
      pendingHello, pendingTheme, pendingLocale := None, None, None;
      pluginReady, protocol, listeners, saveSeq := false, None, Listeners([], [], [], [], []), 0;
      posts, readied, calls, open := [], [], [], multiset{};
    }

    function View(): Bridge
      reads this
    {
      Bridge(Pending(pendingHello, pendingTheme, pendingLocale), pluginReady, protocol, listeners, saveSeq,
             posts, readied, calls, open)
    }

    method PostMessage(m: HostMessage)
      modifies this`posts
      ensures View() == Posting(c, old(View()), m)
    {
      posts := posts + [Post(m, if c.sandboxed then "*" else c.pluginOrigin)];
    }

    method DoFlushHello()
      modifies this`posts
      ensures View() == FlushHello(c, old(View()))
    {
      if pluginReady && pendingHello.Some? {
        PostMessage(HelloMessage(c, pendingHello.value));
      }
    }

    method FlushTheme()
      modifies this`posts, this`pendingTheme
      ensures View() == Flush(c, old(View()), Theme)
    {
      if pluginReady && pendingTheme.Some? {
        PostMessage(Change(Theme, pendingTheme.value));
        pendingTheme := None;
      }
    }

    method FlushLocale()
      modifies this`posts, this`pendingLocale
      ensures View() == Flush(c, old(View()), Locale)
    {
      if pluginReady && pendingLocale.Some? {
        PostMessage(Change(Locale, pendingLocale.value));
        pendingLocale := None;
      }
    }

    method CallAll(handlers: seq<nat>, body: string)
      modifies this`calls
      ensures calls == old(calls) + CallsTo(handlers, body)
    {
      for i := 0 to |handlers|
        invariant calls == old(calls) + CallsTo(handlers, body)[..i]
      {
        calls := calls + [Call(handlers[i], body)];
      }
    }

    method CallReadyHandlers()
      modifies this`readied
      ensures readied == old(readied) + listeners.ready
    {
      for i := 0 to |listeners.ready|
        invariant readied == old(readied) + listeners.ready[..i]
      {
        readied := readied + [listeners.ready[i]];
      }
    }

    method DoGreet()
      modifies this`posts, this`pendingTheme, this`pendingLocale
      ensures View() == Greet(c, old(View()))
    {
      hide Flush, FlushHello;
      DoFlushHello();
      FlushTheme();
      FlushLocale();
    }

    method HandleReady(p: Option<nat>)
      modifies this
      ensures View() == OnMessage(c, old(View()), Ready(p))
    {
      hide Greet;
      var wasReady := pluginReady;
      pluginReady := true;
      protocol := Some(if p.Some? then p.value else 1);
      DoGreet();
      if !wasReady {
        CallReadyHandlers();
      }
    }

    method Handle(source: nat, origin: string, m: PluginMessage)
      modifies this
      ensures View() == Step(c, old(View()), Arrives(source, origin, m))
    {
      hide Flush, FlushHello, CallsTo;
      if c.sandboxed {
        if source != c.target {
          return;
        }
      } else if origin != c.pluginOrigin {
        return;
      }
      match m
      case Unknown =>
      case Ready(p) =>
        HandleReady(p);
      case News(topic, body) =>
        CallAll(HandlersOf(listeners, topic), body);
      case RpcRequest(id, _) =>
        if !c.hasForwarder {
          PostMessage(RpcResponse(id, false, "no-forwarder"));
        } else {
          open := open + multiset{id};
        }
    }

    method SendHelloOnReady(h: Hello)
      modifies this
      ensures View() == Step(c, old(View()), SendHello(h))
    {
      pendingHello := Some(h);
      DoFlushHello();
    }

    method SendThemeChange(value: string)
      modifies this
      ensures View() == Step(c, old(View()), Send(Theme, value))
    {
      pendingTheme := Some(value);
      FlushTheme();
    }

    method SendLocaleChange(value: string)
      modifies this
      ensures View() == Step(c, old(View()), Send(Locale, value))
    {
      pendingLocale := Some(value);
      FlushLocale();
    }

    method OnPluginReady(h: nat)
      modifies this
      ensures View() == Step(c, old(View()), OnReady(h))
    {
      if pluginReady {
        readied := readied + [h];
      } else {
        listeners := listeners.(ready := listeners.ready + [h]);
      }
    }

    method OnNews(t: Topic, h: nat)
      modifies this
      ensures View() == Step(c, old(View()), Listen(t, h))
    {
      listeners := Adding(listeners, t, h);
    }

    method AskToSave(now: nat) returns (id: string)
      modifies this
      ensures View() == Step(c, old(View()), RequestSave(now))
      ensures posts == old(posts) + [Post(Save(id), TargetOrigin(c))]
    {
      saveSeq := saveSeq + 1;
      id := "save-" + Decimal(saveSeq) + "-" + Decimal(now);
      PostMessage(Save(id));
    }

    method ReplyRpc(id: string, ok: bool, body: string)
      requires CanHappen(View(), RpcSettles(id, ok, body))
      modifies this
      ensures View() == Step(c, old(View()), RpcSettles(id, ok, body))
    {
      open := open - multiset{id};
      PostMessage(RpcResponse(id, ok, body));
    }
  }
}
