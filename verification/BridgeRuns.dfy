/** What a bridge has posted and called after any run of inputs, told from the inputs alone. */
module BridgeRuns {
  import opened Wrappers
  import opened Columns
  import opened HostBridge

  function Play(c: Config, inputs: seq<Input>): Bridge {
    if inputs == [] then FRESH else Step(c, Play(c, inputs[..|inputs| - 1]), inputs[|inputs| - 1])
  }

  ghost predicate Playable(c: Config, inputs: seq<Input>) {
    inputs == [] ||
    var (front, last) := (inputs[..|inputs| - 1], inputs[|inputs| - 1]);
    Playable(c, front) && CanHappen(Play(c, front), last)
  }

  /** The plugin's signal that it is ready, from the accepted peer. */
  predicate IsReady(c: Config, i: Input) {
    i.Arrives? && Accepts(c, i.source, i.origin) && i.message.Ready?
  }

  predicate ReadyIn(c: Config, inputs: seq<Input>) {
    inputs != [] && (ReadyIn(c, inputs[..|inputs| - 1]) || IsReady(c, inputs[|inputs| - 1]))
  }

  lemma {:induction false} ReadyMeans(c: Config, inputs: seq<Input>)
    ensures Play(c, inputs).ready <==> ReadyIn(c, inputs)
  {
    if inputs != [] {
      ReadyMeans(c, inputs[..|inputs| - 1]);
    }
  }

  // ---- Themes and locales ----

  /** The last value sent before the first ready signal. */
  function LastBeforeReady(c: Config, inputs: seq<Input>, ch: Channel): Option<string> {
    if inputs == [] then None
    else
      var (front, last) := (inputs[..|inputs| - 1], inputs[|inputs| - 1]);
      if !ReadyIn(c, front) && last.Send? && last.channel == ch then Some(last.value) else LastBeforeReady(c, front, ch)
  }

  /** The values sent from the first ready signal on. */
  function SentAfterReady(c: Config, inputs: seq<Input>, ch: Channel): seq<string> {
    if inputs == [] then []
    else
      var (front, last) := (inputs[..|inputs| - 1], inputs[|inputs| - 1]);
      SentAfterReady(c, front, ch) + if ReadyIn(c, front) && last.Send? && last.channel == ch then [last.value] else []
  }

  function LastSent(inputs: seq<Input>, ch: Channel): Option<string> {
    if inputs == [] then None
    else
      var last := inputs[|inputs| - 1];
      if last.Send? && last.channel == ch then Some(last.value) else LastSent(inputs[..|inputs| - 1], ch)
  }

  function OneOrNone<T>(o: Option<T>): seq<T> { if o.Some? then [o.value] else [] }

  /** The values of a channel among the posts. */
  function Posted(posts: seq<Post>, ch: Channel): seq<string> {
    if posts == [] then []
    else
      var m := posts[|posts| - 1].message;
      Posted(posts[..|posts| - 1], ch) + if m.Change? && m.channel == ch then [m.value] else []
  }

  lemma PostedOneMore(posts: seq<Post>, p: Post, ch: Channel)
    ensures Posted(posts + [p], ch) ==
            Posted(posts, ch) + if p.message.Change? && p.message.channel == ch then [p.message.value] else []
  {
    assert (posts + [p])[..|posts|] == posts;
  }

  lemma FlushPosts(c: Config, b: Bridge, flushed: Channel, ch: Channel)
    ensures var after := Flush(c, b, flushed);
      && after.ready == b.ready
      && (flushed == ch && b.ready ==>
            Posted(after.posts, ch) == Posted(b.posts, ch) + OneOrNone(PendingOn(b.pending, ch)) &&
            PendingOn(after.pending, ch) == None)
      && (flushed != ch || !b.ready ==>
            Posted(after.posts, ch) == Posted(b.posts, ch) && PendingOn(after.pending, ch) == PendingOn(b.pending, ch))
  {
    if b.ready && PendingOn(b.pending, flushed).Some? {
      PostedOneMore(b.posts, Post(Change(flushed, PendingOn(b.pending, flushed).value), TargetOrigin(c)), ch);
    }
  }

  lemma FlushHelloPosts(c: Config, b: Bridge, ch: Channel)
    ensures var after := FlushHello(c, b);
      after.ready == b.ready && after.pending == b.pending && Posted(after.posts, ch) == Posted(b.posts, ch)
  {
    if b.ready && b.pending.hello.Some? {
      PostedOneMore(b.posts, Post(HelloMessage(c, b.pending.hello.value), TargetOrigin(c)), ch);
    }
  }

  /** What a step does to one channel: post what is pending when ready, and else hold the latest. */
  lemma StepOnChannel(c: Config, b: Bridge, i: Input, ch: Channel)
    ensures var after := Step(c, b, i);
      var pending := if i.Send? && i.channel == ch then Some(i.value) else PendingOn(b.pending, ch);
      var flushes := (b.ready && i.Send? && i.channel == ch) || IsReady(c, i);
      Posted(after.posts, ch) == Posted(b.posts, ch) + (if flushes then OneOrNone(pending) else []) &&
      PendingOn(after.pending, ch) == if flushes then None else pending
  {
    hide Flush, FlushHello, Posted;
    match i
    case Arrives(_, _, m) =>
      if Accepts(c, i.source, i.origin) {
        MessageOnChannel(c, b, m, ch);
      }
    case SendHello(h) => FlushHelloPosts(c, b.(pending := b.pending.(hello := Some(h))), ch);
    case Send(other, value) =>
      var held := b.(pending := WithPending(b.pending, other, Some(value)));
      FlushPosts(c, held, other, ch);
    case RequestSave(now) => PostedOneMore(b.posts, Post(Save(SaveId(b.saveSeq + 1, now)), TargetOrigin(c)), ch);
    case RpcSettles(id, ok, body) => PostedOneMore(b.posts, Post(RpcResponse(id, ok, body), TargetOrigin(c)), ch);
    case OnReady(_) =>
    case Listen(_, _) =>
  }

  lemma MessageOnChannel(c: Config, b: Bridge, m: PluginMessage, ch: Channel)
    ensures var after := OnMessage(c, b, m);
      if m.Ready? then
        Posted(after.posts, ch) == Posted(b.posts, ch) + OneOrNone(PendingOn(b.pending, ch)) &&
        PendingOn(after.pending, ch) == None
      else
        Posted(after.posts, ch) == Posted(b.posts, ch) && PendingOn(after.pending, ch) == PendingOn(b.pending, ch)
  {
    hide Flush, FlushHello, Posted;
    if m.Ready? {
      var b1 := b.(ready := true, protocol := Some(if m.protocol.Some? then m.protocol.value else 1));
      FlushHelloPosts(c, b1, ch);
      FlushPosts(c, FlushHello(c, b1), Theme, ch);
      FlushPosts(c, Flush(c, FlushHello(c, b1), Theme), Locale, ch);
    } else if m.RpcRequest? {
      PostedOneMore(b.posts, Post(RpcResponse(m.id, false, "no-forwarder"), TargetOrigin(c)), ch);
    }
  }

  /** Nothing of a channel is posted before the plugin is ready. Then the last value sent before goes out,
      if there was one, and after it every value sent since, each once and in order. */
  lemma {:induction false} ChannelPostsExactly(c: Config, inputs: seq<Input>, ch: Channel)
    ensures var b := Play(c, inputs);
      if ReadyIn(c, inputs) then
        Posted(b.posts, ch) == OneOrNone(LastBeforeReady(c, inputs, ch)) + SentAfterReady(c, inputs, ch) &&
        PendingOn(b.pending, ch) == None
      else
        Posted(b.posts, ch) == [] && SentAfterReady(c, inputs, ch) == [] &&
        PendingOn(b.pending, ch) == LastBeforeReady(c, inputs, ch)
  {
    hide Step, Posted, IsReady;
    NonePosted(ch);
    if inputs != [] {
      var front := inputs[..|inputs| - 1];
      ChannelPostsExactly(c, front, ch);
      ReadyMeans(c, front);
      StepOnChannel(c, Play(c, front), inputs[|inputs| - 1], ch);
      ReadyIsNoSend(c, inputs[|inputs| - 1]);
    }
  }

  lemma NonePosted(ch: Channel)
    ensures Posted([], ch) == []
  {
  }

  lemma ReadyIsNoSend(c: Config, i: Input)
    ensures IsReady(c, i) ==> !i.Send?
  {
  }

  lemma {:induction false} LastSentIs(c: Config, inputs: seq<Input>, ch: Channel)
    ensures LastSent(inputs, ch) ==
      var after := SentAfterReady(c, inputs, ch);
      if after != [] then Some(after[|after| - 1]) else LastBeforeReady(c, inputs, ch)
    ensures !ReadyIn(c, inputs) ==> SentAfterReady(c, inputs, ch) == []
  {
    hide IsReady;
    if inputs != [] {
      LastSentIs(c, inputs[..|inputs| - 1], ch);
    }
  }

  /** Once ready, the plugin has been told the latest value last. */
  lemma LatestIsPostedLast(c: Config, inputs: seq<Input>, ch: Channel)
    requires ReadyIn(c, inputs) && LastSent(inputs, ch).Some?
    ensures var posted := Posted(Play(c, inputs).posts, ch);
      posted != [] && Some(posted[|posted| - 1]) == LastSent(inputs, ch)
  {
    hide Play, Posted, ReadyIn, LastBeforeReady, SentAfterReady, LastSent;
    ChannelPostsExactly(c, inputs, ch);
    LastSentIs(c, inputs, ch);
  }

  // ---- Ready handlers ----

  function Registered(inputs: seq<Input>): seq<nat> {
    if inputs == [] then []
    else
      Registered(inputs[..|inputs| - 1]) + if inputs[|inputs| - 1].OnReady? then [inputs[|inputs| - 1].handler] else []
  }

  lemma FlushKeepsHandlers(c: Config, b: Bridge, ch: Channel)
    ensures Flush(c, b, ch).readied == b.readied && Flush(c, b, ch).listeners == b.listeners
    ensures FlushHello(c, b).readied == b.readied && FlushHello(c, b).listeners == b.listeners
  {
  }

  lemma ReadyCalls(c: Config, b: Bridge, protocol: Option<nat>)
    ensures var after := OnMessage(c, b, Ready(protocol));
      after.listeners == b.listeners && after.readied == b.readied + if b.ready then [] else b.listeners.ready
  {
    hide Flush, FlushHello;
    var b1 := b.(ready := true, protocol := Some(if protocol.Some? then protocol.value else 1));
    FlushKeepsHandlers(c, b1, Theme);
    FlushKeepsHandlers(c, FlushHello(c, b1), Theme);
    FlushKeepsHandlers(c, Flush(c, FlushHello(c, b1), Theme), Locale);
  }

  /** Every ready handler is called exactly once, in the order of registration, whether it was registered
      before the signal or after; none is called before it, and further signals call nobody. */
  lemma {:induction false} ReadyHandlersCalledOnce(c: Config, inputs: seq<Input>)
    ensures var b := Play(c, inputs);
      if ReadyIn(c, inputs) then b.readied == Registered(inputs)
      else b.readied == [] && b.listeners.ready == Registered(inputs)
  {
    if inputs != [] {
      var (front, last) := (inputs[..|inputs| - 1], inputs[|inputs| - 1]);
      var b := Play(c, front);
      ReadyHandlersCalledOnce(c, front);
      ReadyMeans(c, front);
      hide Flush, FlushHello, CallsTo;
      FlushKeepsHandlers(c, b, Theme);
      match last
      case Arrives(_, _, m) =>
        if Accepts(c, last.source, last.origin) && m.Ready? {
          hide OnMessage;
          ReadyCalls(c, b, m.protocol);
        }
      case SendHello(h) => FlushKeepsHandlers(c, b.(pending := b.pending.(hello := Some(h))), Theme);
      case Send(ch, value) => FlushKeepsHandlers(c, b.(pending := WithPending(b.pending, ch, Some(value))), ch);
      case _ =>
    }
  }

  // ---- Hellos, saves and replies ----

  datatype Sort = Hellos | Saves | Replies(id: string)

  predicate Is(m: HostMessage, s: Sort) {
    match s
    case Hellos => m.HostHello?
    case Saves => m.Save?
    case Replies(id) => m.RpcResponse? && m.id == id
  }

  function Select(posts: seq<Post>, s: Sort): seq<HostMessage> {
    if posts == [] then []
    else
      var m := posts[|posts| - 1].message;
      Select(posts[..|posts| - 1], s) + if Is(m, s) then [m] else []
  }

  lemma PostingSelects(c: Config, b: Bridge, m: HostMessage, s: Sort)
    ensures Select(Posting(c, b, m).posts, s) == Select(b.posts, s) + if Is(m, s) then [m] else []
  {
    assert Posting(c, b, m).posts[..|b.posts|] == b.posts;
  }

  lemma FlushSelects(c: Config, b: Bridge, ch: Channel, s: Sort)
    ensures var after := Flush(c, b, ch);
      Select(after.posts, s) == Select(b.posts, s) && after.pending.hello == b.pending.hello &&
      after.saveSeq == b.saveSeq && after.open == b.open && after.ready == b.ready
  {
    if b.ready && PendingOn(b.pending, ch).Some? {
      PostingSelects(c, b, Change(ch, PendingOn(b.pending, ch).value), s);
    }
  }

  function HelloOf(c: Config, h: Option<Hello>): seq<HostMessage> { if h.Some? then [HelloMessage(c, h.value)] else [] }

  lemma FlushHelloSelects(c: Config, b: Bridge, s: Sort)
    ensures var after := FlushHello(c, b);
      Select(after.posts, s) ==
        Select(b.posts, s) + (if s.Hellos? && b.ready then HelloOf(c, b.pending.hello) else []) &&
      after.pending == b.pending && after.saveSeq == b.saveSeq && after.open == b.open && after.ready == b.ready
  {
    if b.ready && b.pending.hello.Some? {
      PostingSelects(c, b, HelloMessage(c, b.pending.hello.value), s);
    }
  }

  /** The rest of a bridge's state that hellos, saves and replies depend on. */
  lemma ReadySelects(c: Config, b: Bridge, protocol: Option<nat>, s: Sort)
    ensures var after := OnMessage(c, b, Ready(protocol));
      Select(after.posts, s) == Select(b.posts, s) + (if s.Hellos? then HelloOf(c, b.pending.hello) else []) &&
      after.pending.hello == b.pending.hello && after.saveSeq == b.saveSeq && after.open == b.open
  {
    hide Flush, FlushHello, Select;
    var b1 := b.(ready := true, protocol := Some(if protocol.Some? then protocol.value else 1));
    FlushHelloSelects(c, b1, s);
    FlushSelects(c, FlushHello(c, b1), Theme, s);
    FlushSelects(c, Flush(c, FlushHello(c, b1), Theme), Locale, s);
  }

  /** What a step posts of one sort. */
  function Adds(c: Config, b: Bridge, i: Input, s: Sort): seq<HostMessage> {
    match s
    case Hellos =>
      if IsReady(c, i) then HelloOf(c, b.pending.hello)
      else if i.SendHello? && b.ready then [HelloMessage(c, i.hello)]
      else []
    case Saves => if i.RequestSave? then [Save(SaveId(b.saveSeq + 1, i.now))] else []
    case Replies(id) =>
      if i.RpcSettles? && i.id == id then [RpcResponse(id, i.ok, i.body)]
      else if AsksRpc(c, i, id) && !c.hasForwarder then [RpcResponse(id, false, "no-forwarder")]
      else []
  }

  /** An accepted request of the plugin with this id. */
  predicate AsksRpc(c: Config, i: Input, id: string) {
    i.Arrives? && Accepts(c, i.source, i.origin) && i.message.RpcRequest? && i.message.id == id
  }

  lemma MessageSelects(c: Config, b: Bridge, m: PluginMessage, s: Sort)
    ensures Select(OnMessage(c, b, m).posts, s) == Select(b.posts, s) +
      match s
      case Hellos => if m.Ready? then HelloOf(c, b.pending.hello) else []
      case Saves => []
      case Replies(id) =>
        if m.RpcRequest? && m.id == id && !c.hasForwarder then [RpcResponse(id, false, "no-forwarder")] else []
  {
    hide Select, CallsTo;
    if m.Ready? {
      hide OnMessage;
      ReadySelects(c, b, m.protocol, s);
    } else if m.RpcRequest? {
      PostingSelects(c, b, RpcResponse(m.id, false, "no-forwarder"), s);
    }
  }

  lemma StepSelects(c: Config, b: Bridge, i: Input, s: Sort)
    ensures Select(Step(c, b, i).posts, s) == Select(b.posts, s) + Adds(c, b, i, s)
  {
    hide Flush, FlushHello, Select, OnMessage, SaveId;
    match i
    case Arrives(_, _, m) =>
      if Accepts(c, i.source, i.origin) {
        MessageSelects(c, b, m, s);
      }
    case SendHello(h) => FlushHelloSelects(c, b.(pending := b.pending.(hello := Some(h))), s);
    case Send(ch, value) => FlushSelects(c, b.(pending := WithPending(b.pending, ch, Some(value))), ch, s);
    case RequestSave(now) => PostingSelects(c, b.(saveSeq := b.saveSeq + 1), Save(SaveId(b.saveSeq + 1, now)), s);
    case RpcSettles(id, ok, body) => PostingSelects(c, b.(open := b.open - multiset{id}), RpcResponse(id, ok, body), s);
    case OnReady(_) =>
    case Listen(_, _) =>
  }

  /** The fields that hellos, saves and replies depend on. */
  lemma StepOnFields(c: Config, b: Bridge, i: Input)
    ensures var after := Step(c, b, i);
      && after.pending.hello == (if i.SendHello? then Some(i.hello) else b.pending.hello)
      && after.saveSeq == b.saveSeq + (if i.RequestSave? then 1 else 0)
      && after.open == (if i.RpcSettles? then b.open - multiset{i.id}
                        else if i.Arrives? && i.message.RpcRequest? && AsksRpc(c, i, i.message.id) &&
                                c.hasForwarder then
                          b.open + multiset{i.message.id}
                        else b.open)
  {
    hide Flush, FlushHello, CallsTo;
    match i
    case Arrives(_, _, m) =>
      if Accepts(c, i.source, i.origin) && m.Ready? {
        hide OnMessage;
        ReadySelects(c, b, m.protocol, Hellos);
      }
    case SendHello(h) => FlushHelloSelects(c, b.(pending := b.pending.(hello := Some(h))), Hellos);
    case Send(ch, value) => FlushSelects(c, b.(pending := WithPending(b.pending, ch, Some(value))), ch, Hellos);
    case _ =>
  }

  function LastHello(inputs: seq<Input>): Option<Hello> {
    if inputs == [] then None
    else if inputs[|inputs| - 1].SendHello? then Some(inputs[|inputs| - 1].hello)
    else LastHello(inputs[..|inputs| - 1])
  }

  /** One hello for every ready signal, and one for every hello sent when ready: the latest each time. */
  function HellosDue(c: Config, inputs: seq<Input>): seq<HostMessage> {
    if inputs == [] then []
    else
      var (front, last) := (inputs[..|inputs| - 1], inputs[|inputs| - 1]);
      HellosDue(c, front) +
      if IsReady(c, last) || (ReadyIn(c, front) && last.SendHello?) then HelloOf(c, LastHello(inputs)) else []
  }

  /** A hello goes out at every ready signal and whenever one is sent to a ready plugin, always the latest,
      and none before the first signal. */
  lemma {:induction false} HellosPostedExactly(c: Config, inputs: seq<Input>)
    ensures Select(Play(c, inputs).posts, Hellos) == HellosDue(c, inputs)
    ensures Play(c, inputs).pending.hello == LastHello(inputs)
    ensures !ReadyIn(c, inputs) ==> HellosDue(c, inputs) == []
  {
    if inputs != [] {
      hide Step, Select;
      var (front, last) := (inputs[..|inputs| - 1], inputs[|inputs| - 1]);
      HellosPostedExactly(c, front);
      ReadyMeans(c, front);
      StepSelects(c, Play(c, front), last, Hellos);
      StepOnFields(c, Play(c, front), last);
    }
  }

  // ---- Save ids ----

  lemma DashEndsDigits(s: string, a: string, d: string)
    requires Digits(a) && s == a + "-" + d
    ensures |a| < |s| && s[|a|] == '-' && a == s[..|a|]
    ensures forall i :: 0 <= i < |a| ==> s[i] != '-'
  {
    forall i | 0 <= i < |a| ensures s[i] == a[i] {
    }
  }

  lemma DigitsBeforeDash(a: string, d: string, b: string, e: string)
    requires Digits(a) && Digits(b) && a + "-" + d == b + "-" + e
    ensures a == b
  {
    DashEndsDigits(a + "-" + d, a, d);
    DashEndsDigits(a + "-" + d, b, e);
  }

  lemma SaveIdsDiffer(n: nat, now: nat, m: nat, later: nat)
    requires SaveId(n, now) == SaveId(m, later)
    ensures n == m
  {
    assert SaveId(n, now)[5..] == Decimal(n) + "-" + Decimal(now);
    assert SaveId(m, later)[5..] == Decimal(m) + "-" + Decimal(later);
    DigitsBeforeDash(Decimal(n), Decimal(now), Decimal(m), Decimal(later));
    DecimalInjective(n, m);
  }

  ghost predicate IsSaveOf(m: HostMessage, n: nat) { exists now: nat :: m == Save(SaveId(n, now)) }

  lemma SaveIsNumbered(n: nat, now: nat)
    ensures IsSaveOf(Save(SaveId(n, now)), n)
  {
  }

  lemma {:induction false} SavesAreNumbered(c: Config, inputs: seq<Input>)
    ensures var saves := Select(Play(c, inputs).posts, Saves);
      |saves| == Play(c, inputs).saveSeq && forall k :: 0 <= k < |saves| ==> IsSaveOf(saves[k], k + 1)
  {
    if inputs != [] {
      hide Step, Select, SaveId, IsSaveOf;
      var (front, last) := (inputs[..|inputs| - 1], inputs[|inputs| - 1]);
      SavesAreNumbered(c, front);
      if last.RequestSave? {
        SaveIsNumbered(Play(c, front).saveSeq + 1, last.now);
      }
      StepSelects(c, Play(c, front), last, Saves);
      StepOnFields(c, Play(c, front), last);
    }
  }

  /** No two save requests of a bridge share an id, whatever the clock says. */
  lemma SaveIdsDistinct(c: Config, inputs: seq<Input>, j: nat, k: nat)
    ensures var saves := Select(Play(c, inputs).posts, Saves);
      j < k < |saves| ==> saves[j] != saves[k]
  {
    hide Select, Play, IsSaveOf;
    var saves := Select(Play(c, inputs).posts, Saves);
    SavesAreNumbered(c, inputs);
    if j < k < |saves| {
      NumberedSavesDiffer(saves[j], j + 1, saves[k], k + 1);
    }
  }

  lemma NumberedSavesDiffer(a: HostMessage, m: nat, b: HostMessage, n: nat)
    requires IsSaveOf(a, m) && IsSaveOf(b, n) && m != n
    ensures a != b
  {
    hide SaveId;
    var now: nat :| a == Save(SaveId(m, now));
    var later: nat :| b == Save(SaveId(n, later));
    if SaveId(m, now) == SaveId(n, later) {
      SaveIdsDiffer(m, now, n, later);
    }
  }

  // ---- Replies ----

  function Requests(c: Config, inputs: seq<Input>, id: string): nat {
    if inputs == [] then 0
    else Requests(c, inputs[..|inputs| - 1], id) + if AsksRpc(c, inputs[|inputs| - 1], id) then 1 else 0
  }

  /** Every accepted request is answered once or still waits: replies and waiting requests add up to the
      requests, for every id. */
  lemma {:induction false} RepliesAddUp(c: Config, inputs: seq<Input>, id: string)
    requires Playable(c, inputs)
    ensures var b := Play(c, inputs); |Select(b.posts, Replies(id))| + b.open[id] == Requests(c, inputs, id)
  {
    if inputs != [] {
      hide Step, Select;
      var (front, last) := (inputs[..|inputs| - 1], inputs[|inputs| - 1]);
      RepliesAddUp(c, front, id);
      StepSelects(c, Play(c, front), last, Replies(id));
      StepOnFields(c, Play(c, front), last);
    }
  }
}
