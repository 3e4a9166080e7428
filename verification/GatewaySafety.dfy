/** What every step of the lifecycle keeps of the fleet of clients and continuations. */
module GatewaySafety {
  import opened Wrappers
  import opened GatewayMachine

  /** Client k's `connect()` promise is still unsettled. */
  predicate Handshaking(f: Fleet, k: ClientId)
    requires k < |f.clients|
  {
    var id := f.clients[k].hello;
    id in f.pending && f.pending[id].AwaitsHello() && f.pending[id].client == k
  }

  /** Client k is the backup of a cutover whose handshake has not been answered. */
  predicate AwaitedBackup(f: Fleet, k: ClientId)
    requires k < |f.clients|
  {
    Handshaking(f, k) && f.pending[f.clients[k].hello].CutoverHello?
  }

  /** No client is leaked: each is registered, closed, or an awaited backup. */
  ghost predicate NoneLeaked(f: Fleet) {
    forall k :: 0 <= k < |f.clients| ==> f.register == Some(k) || f.clients[k].closed || AwaitedBackup(f, k)
  }

  predicate PendingOk(f: Fleet, id: nat, p: Pending) {
    && id < f.nextOp
    && p.generation <= f.generation
    && (p.AwaitsHello() ==> p.client < |f.clients| && f.clients[p.client].hello == id)
    && (p.IsCutover() && p.source.Some? ==> p.source.value < |f.clients|)
    // an awaited backup is open and not yet registered
    && (p.CutoverHello? ==> f.register != Some(p.client) && !f.clients[p.client].closed)
  }

  ghost predicate AllPendingOk(f: Fleet) {
    forall id :: id in f.pending ==> PendingOk(f, id, f.pending[id])
  }

  /** `id` is a connect of the newest generation, waiting for its token. */
  predicate Newest(f: Fleet, id: nat) {
    id in f.pending && f.pending[id].ConnectToken? && f.pending[id].generation == f.generation
  }

  ghost predicate NoneNewest(f: Fleet) { forall id :: !Newest(f, id) }

  /** While the newest connect waits for its token the register is empty, and it is the only one. */
  ghost predicate ConnectsApart(f: Fleet) {
    && (f.register.Some? ==> NoneNewest(f))
    && (forall i, j :: Newest(f, i) && Newest(f, j) ==> i == j)
  }

  ghost predicate Inv(f: Fleet) {
    && NoneLeaked(f) && AllPendingOk(f) && ConnectsApart(f)
    && (f.register.Some? ==> f.register.value < |f.clients|)
  }

  // ---- preservation, one primitive at a time ----

  lemma BumpKeepsInv(f: Fleet)
    requires Inv(f)
    ensures Inv(f.Bump()) && NoneNewest(f.Bump())
  {
    var t := f.Bump();
    assert forall i :: i in f.pending ==> PendingOk(f, i, f.pending[i]);
    assert forall k :: 0 <= k < |f.clients| && AwaitedBackup(f, k) ==> AwaitedBackup(t, k);
  }

  /** Closing any client but an awaited backup. */
  lemma CloseKeepsInv(f: Fleet, k: ClientId)
    requires Inv(f) && k < |f.clients| && !AwaitedBackup(f, k)
    ensures Inv(f.Close(k))
  {
    var t := f.Close(k);
    assert forall j :: 0 <= j < |t.clients| && AwaitedBackup(f, j) ==> AwaitedBackup(t, j);
    assert forall id :: Newest(t, id) ==> Newest(f, id);
  }

  lemma DropKeepsInv(f: Fleet)
    requires Inv(f)
    ensures Inv(f.Drop()) && f.Drop().register == None
    ensures NoneNewest(f) ==> NoneNewest(f.Drop())
  {
    if f.register.Some? {
      var t := f.Drop();
      assert AwaitedBackup(f, f.register.value) ==>
          PendingOk(f, f.clients[f.register.value].hello, f.pending[f.clients[f.register.value].hello]);
      assert forall j :: 0 <= j < |t.clients| && AwaitedBackup(f, j) ==> AwaitedBackup(t, j);
      assert forall id :: Newest(t, id) ==> Newest(f, id);
    }
  }

  lemma ResumeKeepsInv(f: Fleet, id: nat)
    requires Inv(f) && id in f.pending && !f.pending[id].CutoverHello?
    ensures Inv(f.Resume(id))
    ensures Newest(f, id) ==> NoneNewest(f.Resume(id))
  {
    var t := f.Resume(id);
    assert forall j :: 0 <= j < |t.clients| && AwaitedBackup(f, j) ==> AwaitedBackup(t, j);
    assert forall j :: Newest(t, j) ==> Newest(f, j);
  }

  /** Suspending on anything but a handshake. */
  lemma SuspendKeepsInv(f: Fleet, p: Pending)
    requires Inv(f) && p.generation <= f.generation && !p.AwaitsHello()
    requires p.CutoverToken? ==> p.source == f.register
    requires p.ConnectToken? ==> f.register == None && NoneNewest(f)
    ensures Inv(f.Suspend(p))
  {
    var t := f.Suspend(p);
    assert forall j :: j in f.pending ==> PendingOk(f, j, f.pending[j]) && j != f.nextOp;
    assert forall j :: 0 <= j < |t.clients| && AwaitedBackup(f, j) ==> AwaitedBackup(t, j);
    assert forall j :: Newest(t, j) ==> Newest(f, j) || j == f.nextOp;
  }

  /** A client built as a backup, its hello awaited. */
  lemma BuildKeepsInv(f: Fleet, p: Pending)
    requires Inv(f) && p.CutoverHello? && p.client == |f.clients| && p.generation <= f.generation
    requires p.source.Some? ==> p.source.value < |f.clients|
    ensures Inv(f.Build(p))
  {
    var t := f.Build(p);
    assert forall j :: j in f.pending ==> PendingOk(f, j, f.pending[j]) && j != f.nextOp;
    assert forall j :: 0 <= j < |f.clients| && AwaitedBackup(f, j) ==> AwaitedBackup(t, j);
    assert AwaitedBackup(t, p.client);
    assert forall j :: Newest(t, j) ==> Newest(f, j);
  }

  /** A client built and registered at once, into an empty register. */
  lemma InstallKeepsInv(f: Fleet, p: Pending)
    requires Inv(f) && p.ConnectHello? && p.client == |f.clients| && p.generation <= f.generation
    requires f.register == None && NoneNewest(f)
    ensures Inv(f.Build(p).(register := Some(p.client)))
  {
    var t := f.Build(p).(register := Some(p.client));
    assert forall j :: j in f.pending ==> PendingOk(f, j, f.pending[j]) && j != f.nextOp;
    assert forall j :: 0 <= j < |f.clients| && AwaitedBackup(f, j) ==> AwaitedBackup(t, j);
    assert forall j :: Newest(t, j) ==> Newest(f, j);
  }

  /** A refused backup leaves: its continuation is gone and it is closed. */
  lemma DiscardKeepsInv(f: Fleet, id: nat)
    requires Inv(f) && id in f.pending && f.pending[id].CutoverHello?
    ensures Inv(f.Resume(id).Close(f.pending[id].client))
  {
    var k := f.pending[id].client;
    var t := f.Resume(id).Close(k);
    assert PendingOk(f, id, f.pending[id]);
    assert forall j :: j in t.pending ==> PendingOk(f, j, f.pending[j]);
    assert forall j :: 0 <= j < |t.clients| && j != k && AwaitedBackup(f, j) ==> AwaitedBackup(t, j);
    assert forall j :: Newest(t, j) ==> Newest(f, j);
  }

  /** The atomic swap: the source is dropped and the backup becomes the registered client. */
  lemma SwapKeepsInv(f: Fleet, id: nat)
    requires Inv(f) && id in f.pending && f.pending[id].CutoverHello?
    ensures Inv(f.Resume(id).Drop().Bump().(register := Some(f.pending[id].client)))
  {
    var k := f.pending[id].client;
    var d := f.Drop();
    DropKeepsInv(f);
    var t := f.Resume(id).Drop().Bump().(register := Some(k));
    assert t.clients == d.clients && t.pending == d.pending - {id};
    assert PendingOk(d, id, d.pending[id]);
    assert forall j :: j in t.pending ==> PendingOk(d, j, d.pending[j]);
    assert forall j :: 0 <= j < |t.clients| && j != k && AwaitedBackup(d, j) ==> AwaitedBackup(t, j);
    assert forall j :: !Newest(t, j);
  }

  // ---- preservation, one step at a time ----

  lemma ConnectKeepsInv(f: Fleet, hasUrl: bool, hasHost: bool)
    requires Inv(f)
    ensures Inv(ConnectFleet(f, hasUrl, hasHost))
  {
    BumpKeepsInv(f);
    DropKeepsInv(f.Bump());
    SuspendKeepsInv(f.Bump().Drop(), ConnectToken(f.generation + 1));
  }

  /** The register is empty when `wsConnect` installs its new client, so it replaces none. */
  lemma InstallsIntoEmptyRegister(s: State, id: nat)
    requires Inv(s.fleet) && Newest(s.fleet, id)
    ensures s.fleet.register == None
    ensures ConnectTokenStep(s, id, true).fleet.register == Some(|s.fleet.clients|)
    ensures ConnectTokenStep(s, id, true).fleet.clients == s.fleet.clients + [Client(false, s.fleet.nextOp)]
  {
  }

  lemma ConnectTokenKeepsInv(s: State, id: nat, got: bool)
    requires Inv(s.fleet) && Enabled(s, ConnectTokenReply(id, got))
    ensures Inv(ConnectTokenStep(s, id, got).fleet)
  {
    var f := s.fleet;
    ResumeKeepsInv(f, id);
    if f.pending[id].generation == f.generation && got {
      InstallsIntoEmptyRegister(s, id);
      InstallKeepsInv(f.Resume(id), ConnectHello(f.generation, |f.clients|));
    }
  }

  lemma ConnectHelloKeepsInv(s: State, id: nat, ok: bool)
    requires Inv(s.fleet) && Enabled(s, ConnectHelloReply(id, ok))
    ensures Inv(ConnectHelloStep(s, id, ok).fleet)
  {
    var p := s.fleet.pending[id];
    ResumeKeepsInv(s.fleet, id);
    assert PendingOk(s.fleet, id, p);
    CloseKeepsInv(s.fleet.Resume(id), p.client);
    SuspendKeepsInv(s.fleet.Resume(id), Revalidation(p.generation));
  }

  lemma CutoverTokenKeepsInv(s: State, id: nat, got: bool)
    requires Inv(s.fleet) && Enabled(s, CutoverTokenReply(id, got))
    ensures Inv(CutoverTokenStep(s, id, got).fleet)
  {
    var p := s.fleet.pending[id];
    assert PendingOk(s.fleet, id, p);
    ResumeKeepsInv(s.fleet, id);
    BuildKeepsInv(s.fleet.Resume(id), CutoverHello(p.generation, p.source, p.target, |s.fleet.clients|));
  }

  lemma CutoverHelloKeepsInv(s: State, id: nat, ok: bool)
    requires Inv(s.fleet) && Enabled(s, CutoverHelloReply(id, ok))
    ensures Inv(CutoverHelloStep(s, id, ok).fleet)
  {
    DiscardKeepsInv(s.fleet, id);
    SwapKeepsInv(s.fleet, id);
  }

  lemma ClosedKeepsInv(s: State, k: ClientId, info: CloseInfo, hasUrl: bool)
    requires Inv(s.fleet)
    ensures Inv(ClosedStep(s, k, info, hasUrl).fleet)
  {
    DropKeepsInv(s.fleet);
    ConnectKeepsInv(s.fleet.Drop(), hasUrl, s.activeHost.Some?);
  }

  /** Every step keeps the invariant. */
  lemma NextKeepsInv(s: State, step: Step)
    requires Inv(s.fleet) && Enabled(s, step)
    ensures Inv(Next(s, step).fleet)
  {
    var f, host := s.fleet, s.activeHost.Some?;
    match step
    case Connect(hasUrl) => ConnectKeepsInv(f, hasUrl, host);
    case ConnectTokenReply(id, got) => ConnectTokenKeepsInv(s, id, got);
    case ConnectHelloReply(id, ok) => ConnectHelloKeepsInv(s, id, ok);
    case RevalidationReply(id, moved, hasUrl) =>
      ResumeKeepsInv(f, id);
      ConnectKeepsInv(f.Resume(id), hasUrl, host);
    case Cutover(target) => SuspendKeepsInv(f, CutoverToken(f.generation, f.register, target));
    case CutoverTokenReply(id, got) => CutoverTokenKeepsInv(s, id, got);
    case CutoverHelloReply(id, ok) => CutoverHelloKeepsInv(s, id, ok);
    case Disconnect =>
      BumpKeepsInv(f);
      DropKeepsInv(f.Bump());
    case Closed(k, info, hasUrl) => ClosedKeepsInv(s, k, info, hasUrl);
    case Received(k, event) =>
      if event.Migrating? && event.target.Some? {
        SuspendKeepsInv(f, CutoverToken(f.generation, f.register, event.target.value));
      }
    case JwtTimer(hasUrl) =>
      DropKeepsInv(f);
      ConnectKeepsInv(f.Drop(), hasUrl, host);
    case EagerTimer(hasUrl) => ConnectKeepsInv(f, hasUrl, host);
    case _ =>
  }
}
