/**
 * The lifecycle code itself, in its own imperative form. Every method is one stretch between two
 * awaits (or one callback) and is tied to the step of `GatewayMachine` it carries out.
 */
module Gateway {
  import opened Wrappers
  import opened GatewayMachine
  import opened GatewaySafety

  /** Fences lifecycle operations that cross awaits. */
  class ConnectionLifecycleFence {
    var generation: nat

    constructor ()
      ensures generation == 0
    {
      generation := 0;
    }

    method Begin() returns (g: nat)
      modifies this
      ensures generation == old(generation) + 1 && g == generation
    {
      generation := generation + 1;
      g := generation;
    }

    predicate IsCurrent(g: nat)
      reads this
    {
      g == generation
    }

    method Invalidate()
      modifies this
      ensures generation == old(generation) + 1 && !IsCurrent(old(generation))
    {
      generation := generation + 1;
    }
  }

  /** The eager-reconnect window and its one pending attempt. */
  class EagerReconnect {
    var now: int
    var armedUntil: int
    var pendingTimer: bool

    constructor (now: int)
      ensures Value() == Eager(now, 0, false)
    {
      this.now, armedUntil, pendingTimer := now, 0, false;
    }

    function Value(): Eager
      reads this
    {
      Eager(now, armedUntil, pendingTimer)
    }

    method Arm()
      modifies this
      ensures Value() == old(Value()).Arm()
    {
      armedUntil := now + DEFAULT_ARM_MS;
    }

    method ClearPending()
      modifies this
      ensures Value() == old(Value()).(scheduled := false)
    {
      if pendingTimer {
        pendingTimer := false;
      }
    }

    method Disarm()
      modifies this
      ensures Value() == old(Value()).Disarm() && !Value().scheduled
    {
      armedUntil := 0;
      ClearPending();
    }

    predicate IsArmed()
      reads this
    {
      now < armedUntil
    }

    method Schedule()
      modifies this
      ensures Value() == old(Value()).(scheduled := true)
    {
      ClearPending();
      pendingTimer := true;
    }
  }

  class GatewayService {
    const fence: ConnectionLifecycleFence
    const eager: EagerReconnect
    const jwtConfigured: bool
    var register: Option<ClientId>
    var clients: seq<Client>
    var pending: map<nat, Pending>
    var nextOp: nat
    var connected: bool
    var connecting: bool
    var closed: bool
    var jwtAuthDisabled: bool
    var jwtRetryTimer: bool
    var notPairedRefetchAttempted: bool
    var activeHostId: Option<nat>

    function FleetNow(): Fleet
      reads this, fence
    {
      Fleet(fence.generation, register, clients, pending, nextOp)
    }

    function Now(): State
      reads this, fence, eager
    {
      State(FleetNow(), Connection(connected, connecting, closed), eager.Value(),
            Auth(jwtConfigured, jwtAuthDisabled, jwtRetryTimer, notPairedRefetchAttempted), activeHostId)
    }

    ghost predicate Valid()
      reads this, fence
    {
      Inv(FleetNow())
    }

    constructor (now: int, jwtConfigured: bool, activeHostId: Option<nat>)
      ensures Init(Now()) && Valid() && fresh(fence) && fresh(eager)
    {
      fence := new ConnectionLifecycleFence();
      eager := new EagerReconnect(now);
      this.jwtConfigured := jwtConfigured;
      register, clients, pending, nextOp := None, [], map[], 0;
      connected, connecting, closed := false, false, false;
      jwtAuthDisabled, jwtRetryTimer, notPairedRefetchAttempted := false, false, false;
      this.activeHostId := activeHostId;
    }

    // ---- the library client and the promise queue ----

    method CloseClient(k: ClientId)
      modifies this`clients
      ensures clients == CloseAt(old(clients), k)
    {
      if k < |clients| {
        clients := clients[k := clients[k].(closed := true)];
      }
    }

    method BuildGatewayClient() returns (k: ClientId)
      modifies this`clients
      ensures k == |old(clients)| && clients == old(clients) + [Client(false, nextOp)]
    {
      k := |clients|;
      clients := clients + [Client(false, nextOp)];
    }

    method Await(p: Pending)
      modifies this`pending, this`nextOp
      ensures pending == old(pending)[old(nextOp) := p] && nextOp == old(nextOp) + 1
    {
      pending := pending[nextOp := p];
      nextOp := nextOp + 1;
    }

    method DropRegistered()
      modifies this`clients, this`register
      ensures FleetNow() == old(FleetNow()).Drop()
    {
      if register.Some? {
        CloseClient(register.value);
        register := None;
      }
    }

    // ---- wsConnect ----

    method WsConnect(hasUrl: bool)
      requires Valid()
      modifies this, fence, eager
      ensures Now() == ConnectStep(old(Now()), hasUrl) && Valid()
    {
      hide Inv, CloseAt;
      ConnectKeepsInv(FleetNow(), hasUrl, activeHostId.Some?);
      var generation := fence.Begin();
      if !hasUrl {
        return;
      }
      closed := false;
      connecting := true;
      eager.ClearPending();
      DropRegistered();
      if activeHostId.None? {
        connecting := false;
        return;
      }
      Await(ConnectToken(generation));
    }

    method ConnectTokenFetched(id: nat, gotToken: bool)
      requires Valid() && Enabled(Now(), ConnectTokenReply(id, gotToken))
      modifies this, fence, eager
      ensures Now() == ConnectTokenStep(old(Now()), id, gotToken) && Valid()
    {
      hide Inv;
      NextKeepsInv(Now(), ConnectTokenReply(id, gotToken));
      var generation := pending[id].generation;
      pending := pending - {id};
      if !fence.IsCurrent(generation) {
        return;
      }
      if !gotToken {
        connecting := false;
        if eager.IsArmed() {
          eager.Schedule();
        }
        return;
      }
      var newClient := BuildGatewayClient();
      register := Some(newClient);
      Await(ConnectHello(generation, newClient));
    }

    method ConnectHandshakeSettled(id: nat, ok: bool)
      requires Valid() && Enabled(Now(), ConnectHelloReply(id, ok))
      modifies this, fence, eager
      ensures Now() == ConnectHelloStep(old(Now()), id, ok) && Valid()
    {
      hide Inv, CloseAt;
      NextKeepsInv(Now(), ConnectHelloReply(id, ok));
      var generation, newClient := pending[id].generation, pending[id].client;
      pending := pending - {id};
      if ok {
        if !fence.IsCurrent(generation) || register != Some(newClient) {
          CloseClient(newClient);
          return;
        }
        connected := true;
        connecting := false;
        eager.Disarm();
        notPairedRefetchAttempted := false;
      } else {
        if !fence.IsCurrent(generation) || register != Some(newClient) {
          return;
        }
        if eager.IsArmed() {
          eager.Schedule();
          return;
        }
        Await(Revalidation(generation));
      }
    }

    method ChannelRevalidated(id: nat, moved: bool, hasUrl: bool)
      requires Valid() && Enabled(Now(), RevalidationReply(id, moved, hasUrl))
      modifies this, fence, eager
      ensures Now() == RevalidationStep(old(Now()), id, moved, hasUrl) && Valid()
    {
      hide Inv, ConnectStep;
      ResumeKeepsInv(FleetNow(), id);
      var generation := pending[id].generation;
      pending := pending - {id};
      if !moved {
        return;
      }
      if !fence.IsCurrent(generation) {
        return;
      }
      WsConnect(hasUrl);
    }

    // ---- cutoverToHost ----

    method CutoverToHost(target: nat)
      requires Valid()
      modifies this
      ensures Now() == CutoverStep(old(Now()), target) && Valid()
    {
      hide Inv;
      NextKeepsInv(Now(), Cutover(target));
      var sourceClient := register;
      var generation := fence.generation;
      Await(CutoverToken(generation, sourceClient, target));
    }

    method CutoverTokenFetched(id: nat, gotToken: bool)
      requires Valid() && Enabled(Now(), CutoverTokenReply(id, gotToken))
      modifies this
      ensures Now() == CutoverTokenStep(old(Now()), id, gotToken) && Valid()
    {
      hide Inv;
      NextKeepsInv(Now(), CutoverTokenReply(id, gotToken));
      var p := pending[id];
      pending := pending - {id};
      if !fence.IsCurrent(p.generation) || register != p.source {
        return;
      }
      if !gotToken {
        return;
      }
      var backup := BuildGatewayClient();
      Await(CutoverHello(p.generation, p.source, p.target, backup));
    }

    /** Returns what `cutoverToHost` returns. */
    method CutoverHandshakeSettled(id: nat, ok: bool) returns (swapped: bool)
      requires Valid() && Enabled(Now(), CutoverHelloReply(id, ok))
      modifies this, fence, eager
      ensures Now() == CutoverHelloStep(old(Now()), id, ok) && Valid()
      ensures swapped == (ok && MaySwap(old(Now()), old(pending[id])))
    {
      hide Inv;
      NextKeepsInv(Now(), CutoverHelloReply(id, ok));
      var p := pending[id];
      var backup := p.client;
      pending := pending - {id};
      if !ok {
        CloseClient(backup);
        return false;
      }
      if !fence.IsCurrent(p.generation) || register != p.source || !connected {
        CloseClient(backup);
        return false;
      }
      Swap(backup, p.target);
      return true;
    }

    /** The atomic swap, which closes the old client last. */
    method Swap(backup: ClientId, target: nat)
      modifies this, fence, eager
      ensures FleetNow() == old(FleetNow()).Drop().Bump().(register := Some(backup))
      ensures connected && !connecting && !closed && activeHostId == Some(target)
      ensures eager.Value() == old(eager.Value()).Disarm() && !notPairedRefetchAttempted
      ensures jwtAuthDisabled == old(jwtAuthDisabled) && jwtRetryTimer == old(jwtRetryTimer)
    {
      var outgoing := register;
      fence.Invalidate();
      register := Some(backup);
      MarkUp(target);
      eager.Disarm();
      if outgoing.Some? {
        CloseClient(outgoing.value);
      }
    }

    method MarkUp(target: nat)
      modifies this`activeHostId, this`connected, this`connecting, this`closed, this`notPairedRefetchAttempted
      ensures connected && !connecting && !closed && activeHostId == Some(target) && !notPairedRefetchAttempted
    {
      if activeHostId != Some(target) {
        activeHostId := Some(target);
      }
      connected := true;
      connecting := false;
      closed := false;
      notPairedRefetchAttempted := false;
    }

    // ---- wsDisconnect, callbacks and timers ----

    method WsDisconnect()
      requires Valid()
      modifies this, fence, eager
      ensures Now() == DisconnectStep(old(Now())) && Valid()
      ensures register == None && !connected && !jwtRetryTimer && !eager.pendingTimer
    {
      hide Inv, CloseAt;
      NextKeepsInv(Now(), Disconnect);
      fence.Invalidate();
      MarkClosed();
      DropRegistered();
      if jwtRetryTimer {
        jwtRetryTimer := false;
      }
      eager.ClearPending();
    }

    method MarkClosed()
      modifies this`connected, this`connecting, this`closed
      ensures closed && !connected && !connecting
    {
      closed := true;
      connected := false;
      connecting := false;
    }

    method HandleAuthFatalClose(hasUrl: bool)
      requires Valid()
      modifies this, fence, eager
      ensures Now() == AuthFatalStep(old(Now()), hasUrl) && Valid()
    {
      hide Inv, ConnectStep, CloseAt;
      if activeHostId.None? {
        return;
      }
      DropKeepsInv(FleetNow());
      DropRegistered();
      if notPairedRefetchAttempted {
        return;
      }
      notPairedRefetchAttempted := true;
      WsConnect(hasUrl);
    }

    method OnClose(client: ClientId, info: CloseInfo, hasUrl: bool)
      requires Valid() && client < |clients|
      modifies this, fence, eager
      ensures Now() == ClosedStep(old(Now()), client, info, hasUrl) && Valid()
    {
      hide Inv, AfterClosed;
      if register != Some(client) {
        return;
      }
      connected := false;
      connecting := false;
      if info.code == 1012 {
        eager.Arm();
      }
      AfterClose(client, info, hasUrl);
    }

    /** The rest of the close callback, by the kind of close. */
    method AfterClose(client: ClientId, info: CloseInfo, hasUrl: bool)
      requires Valid() && register == Some(client)
      modifies this, fence, eager
      ensures Now() == AfterClosed(old(Now()), info, hasUrl) && Valid()
    {
      hide Inv, ConnectStep, AuthFatalStep, CloseAt;
      DropKeepsInv(FleetNow());
      if jwtConfigured && !jwtAuthDisabled && info.IsJwtAuthClose() {
        jwtAuthDisabled := true;
        jwtRetryTimer := true;
        CloseClient(client);
        register := None;
        WsConnect(hasUrl);
        return;
      }
      if info.IsAuthFatalClose() {
        HandleAuthFatalClose(hasUrl);
        return;
      }
      if eager.IsArmed() {
        CloseClient(client);
        register := None;
        eager.Schedule();
      }
    }

    method OnEvent(client: ClientId, event: Event)
      requires Valid() && client < |clients|
      modifies this, eager
      ensures Now() == ReceivedStep(old(Now()), client, event) && Valid()
    {
      hide Inv;
      if register != Some(client) {
        return;
      }
      match event
      case Plain =>
      case Restarting => eager.Arm();
      case Migrating(target) =>
        eager.Arm();
        if target.Some? && connected {
          CutoverToHost(target.value);
        }
    }

    method JwtRetryTimerFired(hasUrl: bool)
      requires Valid() && jwtRetryTimer
      modifies this, fence, eager
      ensures Now() == JwtTimerStep(old(Now()), hasUrl) && Valid()
    {
      hide Inv, ConnectStep, CloseAt;
      DropKeepsInv(FleetNow());
      jwtRetryTimer := false;
      jwtAuthDisabled := false;
      DropRegistered();
      WsConnect(hasUrl);
    }

    method EagerTimerFired(hasUrl: bool)
      requires Valid() && eager.pendingTimer
      modifies this, fence, eager
      ensures Now() == EagerTimerStep(old(Now()), hasUrl) && Valid()
    {
      hide Inv, ConnectStep;
      eager.pendingTimer := false;
      WsConnect(hasUrl);
    }
  }
}
