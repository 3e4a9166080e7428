/**
 * The gateway connection lifecycle as a step machine: one step for each stretch of
 * code between two awaits, plus the callbacks and timers that may run in between.
 * A `GatewayClient` is the index at which it was built; all that is kept of it is whether
 * `close()` was called on it and which continuation awaits its `connect()` promise.
 */
module GatewayMachine {
  import opened Wrappers

  type ClientId = nat

  const DEFAULT_ARM_MS := 180_000

  /** A suspended continuation: what is awaited and the locals it resumes with. */
  datatype Pending =
    | ConnectToken(generation: nat)
    | ConnectHello(generation: nat, client: ClientId)
    | Revalidation(generation: nat)
    | CutoverToken(generation: nat, source: Option<ClientId>, target: nat)
    | CutoverHello(generation: nat, source: Option<ClientId>, target: nat, client: ClientId)
  {
    predicate AwaitsHello() { ConnectHello? || CutoverHello? }

    predicate IsCutover() { CutoverToken? || CutoverHello? }
  }

  datatype Client = Client(closed: bool, hello: nat)

  function CloseAt(clients: seq<Client>, k: ClientId): seq<Client> {
    if k < |clients| then clients[k := clients[k].(closed := true)] else clients
  }

  /** The fence, the client register, every client ever built and every suspended continuation. */
  datatype Fleet = Fleet(
    generation: nat,
    register: Option<ClientId>,
    clients: seq<Client>,
    pending: map<nat, Pending>,
    nextOp: nat)
  {
    /** `lifecycleFence.begin()` and `lifecycleFence.invalidate()` */
    function Bump(): Fleet { this.(generation := generation + 1) }

    function Close(k: ClientId): Fleet { this.(clients := CloseAt(clients, k)) }

    /** `c.close(); setClient(null)` for whatever client is registered */
    function Drop(): Fleet {
      if register.None? then this else Close(register.value).(register := None)
    }

    function Suspend(p: Pending): Fleet {
      this.(pending := pending[nextOp := p], nextOp := nextOp + 1)
    }

    /** Builds a client and awaits its hello; registering it is up to the caller. */
    function Build(p: Pending): Fleet {
      this.(clients := clients + [Client(false, nextOp)], pending := pending[nextOp := p], nextOp := nextOp + 1)
    }

    function Resume(id: nat): Fleet { this.(pending := pending - {id}) }
  }

  datatype Connection = Connection(connected: bool, connecting: bool, closed: bool)

  /** eager-reconnect.ts, and the clock it reads */
  datatype Eager = Eager(now: int, armedUntil: int, scheduled: bool) {
    predicate Armed() { now < armedUntil }

    function Arm(): Eager { this.(armedUntil := now + DEFAULT_ARM_MS) }

    function Disarm(): Eager { this.(armedUntil := 0, scheduled := false) }
  }

  /** `configured` is the environment's PUBLIC_GATEWAY_JWT_AUTH and never changes. */
  datatype Auth = Auth(configured: bool, jwtDisabled: bool, retryTimer: bool, refetchAttempted: bool) {
    predicate JwtEnabled() { configured && !jwtDisabled }
  }

  datatype State = State(fleet: Fleet, conn: Connection, eager: Eager, auth: Auth, activeHost: Option<nat>)

  /** Module load: nothing registered, nothing built, nothing awaited. */
  predicate Init(s: State) {
    && s.fleet == Fleet(0, None, [], map[], 0)
    && s.conn == Connection(false, false, false)
    && s.eager.armedUntil == 0 && !s.eager.scheduled
    && !s.auth.jwtDisabled && !s.auth.retryTimer && !s.auth.refetchAttempted
  }

  /** What a close callback learns: the code, and which patterns its reason matches. */
  datatype CloseInfo = CloseInfo(code: nat, mentionsJwt: bool, mentionsPairing: bool) {
    predicate IsJwtAuthClose() { code == 1008 && mentionsJwt }

    predicate IsAuthFatalClose() { code == 1008 && mentionsPairing }
  }

  datatype Event =
    | Plain                             // any event that leaves the lifecycle alone
    | Restarting                        // update.progress with phase 'restarting'
    | Migrating(target: Option<nat>)    // update.migrating; Some when the assigned host is a distinct one

  datatype Step =
    | Connect(hasUrl: bool)             // hasUrl: the active host is known and has a url
    | ConnectTokenReply(id: nat, gotToken: bool)
    | ConnectHelloReply(id: nat, ok: bool)
    | RevalidationReply(id: nat, moved: bool, hasUrl: bool)
    | Cutover(target: nat)
    | CutoverTokenReply(id: nat, gotToken: bool)
    | CutoverHelloReply(id: nat, ok: bool)
    | Disconnect
    | Closed(client: ClientId, info: CloseInfo, hasUrl: bool)
    | Received(client: ClientId, event: Event)
    | CutoverFallback                   // a failed event-driven cutover re-arms; allowed at any time
    | JwtTimer(hasUrl: bool)
    | EagerTimer(hasUrl: bool)
    | Tick(ms: nat)
    | SelectHost(host: Option<nat>)

  /** A step can run when the continuation or timer it resumes is really pending. */
  predicate Enabled(s: State, step: Step) {
    var f := s.fleet;
    match step
    case ConnectTokenReply(id, _) => id in f.pending && f.pending[id].ConnectToken?
    case ConnectHelloReply(id, _) => id in f.pending && f.pending[id].ConnectHello?
    case RevalidationReply(id, _, _) => id in f.pending && f.pending[id].Revalidation?
    case CutoverTokenReply(id, _) => id in f.pending && f.pending[id].CutoverToken?
    case CutoverHelloReply(id, _) => id in f.pending && f.pending[id].CutoverHello?
    case Closed(k, _, _) => k < |f.clients|
    case Received(k, _) => k < |f.clients|
    case JwtTimer(_) => s.auth.retryTimer
    case EagerTimer(_) => s.eager.scheduled
    case _ => true
  }

  /** The fleet side of `wsConnect` up to its token fetch: a fresh generation, the old client gone. */
  function ConnectFleet(f: Fleet, hasUrl: bool, hasHost: bool): Fleet {
    if !hasUrl then f.Bump()
    else if !hasHost then f.Bump().Drop()
    else f.Bump().Drop().Suspend(ConnectToken(f.generation + 1))
  }

  /** `wsConnect` up to its token fetch. */
  function ConnectStep(s: State, hasUrl: bool): State {
    var fleet := ConnectFleet(s.fleet, hasUrl, s.activeHost.Some?);
    if !hasUrl then s.(fleet := fleet)
    else s.(fleet := fleet, conn := Connection(s.conn.connected, s.activeHost.Some?, false),
            eager := s.eager.(scheduled := false))
  }

  function ConnectTokenStep(s: State, id: nat, gotToken: bool): State
    requires Enabled(s, ConnectTokenReply(id, gotToken))
  {
    var g := s.fleet.pending[id].generation;
    var f := s.fleet.Resume(id);
    if g != f.generation then s.(fleet := f)
    else if !gotToken then
      s.(fleet := f, conn := s.conn.(connecting := false),
         eager := if s.eager.Armed() then s.eager.(scheduled := true) else s.eager)
    else
      s.(fleet := f.Build(ConnectHello(g, |f.clients|)).(register := Some(|f.clients|)))
  }

  function ConnectHelloStep(s: State, id: nat, ok: bool): State
    requires Enabled(s, ConnectHelloReply(id, ok))
  {
    var p := s.fleet.pending[id];
    var f := s.fleet.Resume(id);
    var current := p.generation == f.generation && f.register == Some(p.client);
    if !current then s.(fleet := if ok then f.Close(p.client) else f)
    else if ok then
      s.(fleet := f, conn := s.conn.(connected := true, connecting := false),
         eager := s.eager.Disarm(), auth := s.auth.(refetchAttempted := false))
    else if s.eager.Armed() then s.(fleet := f, eager := s.eager.(scheduled := true))
    else s.(fleet := f.Suspend(Revalidation(p.generation)))
  }

  function RevalidationStep(s: State, id: nat, moved: bool, hasUrl: bool): State
    requires Enabled(s, RevalidationReply(id, moved, hasUrl))
  {
    var g := s.fleet.pending[id].generation;
    var s1 := s.(fleet := s.fleet.Resume(id));
    if moved && g == s.fleet.generation then ConnectStep(s1, hasUrl) else s1
  }

  /** `cutoverToHost` up to its token fetch. */
  function CutoverStep(s: State, target: nat): State {
    s.(fleet := s.fleet.Suspend(CutoverToken(s.fleet.generation, s.fleet.register, target)))
  }

  function CutoverTokenStep(s: State, id: nat, gotToken: bool): State
    requires Enabled(s, CutoverTokenReply(id, gotToken))
  {
    var p := s.fleet.pending[id];
    var f := s.fleet.Resume(id);
    if p.generation != f.generation || f.register != p.source || !gotToken then s.(fleet := f)
    else s.(fleet := f.Build(CutoverHello(p.generation, p.source, p.target, |f.clients|)))
  }

  /** The guard in front of the atomic swap. */
  predicate MaySwap(s: State, p: Pending)
    requires p.CutoverHello?
  {
    p.generation == s.fleet.generation && s.fleet.register == p.source && s.conn.connected
  }

  function CutoverHelloStep(s: State, id: nat, ok: bool): State
    requires Enabled(s, CutoverHelloReply(id, ok))
  {
    var p := s.fleet.pending[id];
    var f := s.fleet.Resume(id);
    if !ok || !MaySwap(s, p) then s.(fleet := f.Close(p.client))
    else
      State(f.Drop().Bump().(register := Some(p.client)), Connection(true, false, false),
            s.eager.Disarm(), s.auth.(refetchAttempted := false), Some(p.target))
  }

  function DisconnectStep(s: State): State {
    s.(fleet := s.fleet.Bump().Drop(), conn := Connection(false, false, true),
       eager := s.eager.(scheduled := false), auth := s.auth.(retryTimer := false))
  }

  /** `handleAuthFatalClose`, which runs into `wsConnect` without awaiting anything first. */
  function AuthFatalStep(s: State, hasUrl: bool): State {
    if s.activeHost.None? then s
    else if s.auth.refetchAttempted then s.(fleet := s.fleet.Drop())
    else ConnectStep(s.(fleet := s.fleet.Drop(), auth := s.auth.(refetchAttempted := true)), hasUrl)
  }

  /** What a close callback does once it has marked the connection down. */
  function AfterClosed(s: State, info: CloseInfo, hasUrl: bool): State {
    if s.auth.JwtEnabled() && info.IsJwtAuthClose() then
      ConnectStep(s.(fleet := s.fleet.Drop(), auth := s.auth.(jwtDisabled := true, retryTimer := true)), hasUrl)
    else if info.IsAuthFatalClose() then AuthFatalStep(s, hasUrl)
    else if s.eager.Armed() then s.(fleet := s.fleet.Drop(), eager := s.eager.(scheduled := true))
    else s
  }

  function ClosedStep(s: State, k: ClientId, info: CloseInfo, hasUrl: bool): State {
    if s.fleet.register != Some(k) then s
    else
      AfterClosed(s.(conn := s.conn.(connected := false, connecting := false),
                     eager := if info.code == 1012 then s.eager.Arm() else s.eager), info, hasUrl)
  }

  function Arm(s: State): State { s.(eager := s.eager.Arm()) }

  function ReceivedStep(s: State, k: ClientId, event: Event): State {
    if s.fleet.register != Some(k) || event.Plain? then s
    else if event.Migrating? && event.target.Some? && s.conn.connected then CutoverStep(Arm(s), event.target.value)
    else Arm(s)
  }

  function JwtTimerStep(s: State, hasUrl: bool): State {
    ConnectStep(s.(fleet := s.fleet.Drop(), auth := s.auth.(jwtDisabled := false, retryTimer := false)), hasUrl)
  }

  function EagerTimerStep(s: State, hasUrl: bool): State {
    ConnectStep(s.(eager := s.eager.(scheduled := false)), hasUrl)
  }

  function Next(s: State, step: Step): State
    requires Enabled(s, step)
  {
    match step
    case Connect(hasUrl) => ConnectStep(s, hasUrl)
    case ConnectTokenReply(id, got) => ConnectTokenStep(s, id, got)
    case ConnectHelloReply(id, ok) => ConnectHelloStep(s, id, ok)
    case RevalidationReply(id, moved, hasUrl) => RevalidationStep(s, id, moved, hasUrl)
    case Cutover(target) => CutoverStep(s, target)
    case CutoverTokenReply(id, got) => CutoverTokenStep(s, id, got)
    case CutoverHelloReply(id, ok) => CutoverHelloStep(s, id, ok)
    case Disconnect => DisconnectStep(s)
    case Closed(k, info, hasUrl) => ClosedStep(s, k, info, hasUrl)
    case Received(k, event) => ReceivedStep(s, k, event)
    case CutoverFallback => Arm(s)
    case JwtTimer(hasUrl) => JwtTimerStep(s, hasUrl)
    case EagerTimer(hasUrl) => EagerTimerStep(s, hasUrl)
    case Tick(ms) => s.(eager := s.eager.(now := s.eager.now + ms))
    case SelectHost(host) => s.(activeHost := host)
  }
}
