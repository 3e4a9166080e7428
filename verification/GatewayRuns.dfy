/** Safety of the connection lifecycle over whole runs, from module load on. */
module GatewayRuns {
  import opened Wrappers
  import opened GatewayMachine
  import opened GatewaySafety

  predicate StepAt(states: seq<State>, steps: seq<Step>, i: nat)
    requires |states| == |steps| + 1 && i < |steps|
  {
    Enabled(states[i], steps[i]) && states[i + 1] == Next(states[i], steps[i])
  }

  /** A stretch of a run, from whatever state it begins in. */
  ghost predicate IsPath(states: seq<State>, steps: seq<Step>) {
    |states| == |steps| + 1 && forall i :: 0 <= i < |steps| ==> StepAt(states, steps, i)
  }

  /** A run begins at module load. */
  ghost predicate IsRun(states: seq<State>, steps: seq<Step>) {
    IsPath(states, steps) && Init(states[0])
  }

  ghost predicate Reachable(s: State) {
    exists states, steps :: IsRun(states, steps) && states[|steps|] == s
  }

  predicate StepsTo(s: State, step: Step, t: State) {
    Enabled(s, step) && t == Next(s, step)
  }

  /** Steps that lead from state to state make a path. */
  lemma StepByStep(states: seq<State>, steps: seq<Step>)
    requires |states| == |steps| + 1
    requires forall i, j :: 0 <= i < |steps| && j == i + 1 ==> StepsTo(states[i], steps[i], states[j])
    ensures IsPath(states, steps)
  {
    hide Next, Enabled;
    forall i | 0 <= i < |steps| ensures StepAt(states, steps, i) {
      assert StepsTo(states[i], steps[i], states[i + 1]);
    }
  }

  lemma {:induction false} PathKeepsInv(states: seq<State>, steps: seq<Step>, i: nat)
    requires IsPath(states, steps) && Inv(states[0].fleet) && i < |states|
    ensures Inv(states[i].fleet)
  {
    if i > 0 {
      PathKeepsInv(states, steps, i - 1);
      assert StepAt(states, steps, i - 1);
      NextKeepsInv(states[i - 1], steps[i - 1]);
    }
  }

  lemma RunKeepsInv(states: seq<State>, steps: seq<Step>, i: nat)
    requires IsRun(states, steps) && i < |states|
    ensures Inv(states[i].fleet)
  {
    PathKeepsInv(states, steps, i);
  }

  lemma ReachableKeepsInv(s: State)
    requires Reachable(s)
    ensures Inv(s.fleet)
  {
    var states, steps :| IsRun(states, steps) && states[|steps|] == s;
    RunKeepsInv(states, steps, |steps|);
  }

  /** Every client ever built is the registered one, is closed, or is the backup of an unanswered cutover. */
  lemma NoClientLeaks(states: seq<State>, steps: seq<Step>, i: nat, k: ClientId)
    requires IsRun(states, steps) && i < |states| && k < |states[i].fleet.clients|
    ensures var f := states[i].fleet; f.register == Some(k) || f.clients[k].closed || AwaitedBackup(f, k)
  {
    RunKeepsInv(states, steps, i);
  }

  /** In every run a connect finds the register empty when its token lets it install a client. */
  lemma RegisterIsEmptyAtInstall(states: seq<State>, steps: seq<Step>, i: nat)
    requires IsRun(states, steps) && i < |steps|
    requires steps[i].ConnectTokenReply? && steps[i].gotToken && Newest(states[i].fleet, steps[i].id)
    ensures states[i].fleet.register == None
    ensures states[i + 1].fleet.register == Some(|states[i].fleet.clients|)
  {
    RunKeepsInv(states, steps, i);
    assert StepAt(states, steps, i);
    InstallsIntoEmptyRegister(states[i], steps[i].id);
  }

  // ---- generations ----

  /** The continuation a step resumes. */
  function Resumed(step: Step): Option<nat> {
    match step
    case ConnectTokenReply(id, _) => Some(id)
    case ConnectHelloReply(id, _) => Some(id)
    case RevalidationReply(id, _, _) => Some(id)
    case CutoverTokenReply(id, _) => Some(id)
    case CutoverHelloReply(id, _) => Some(id)
    case _ => None
  }

  /**
   * Counters only grow, what is still pending is as it was suspended, and a handshake that was
   * not pending before is a new client's.
   */
  ghost predicate Grows(f: Fleet, t: Fleet) {
    && f.generation <= t.generation && f.nextOp <= t.nextOp && |f.clients| <= |t.clients|
    && (forall id :: id in t.pending && id < f.nextOp ==> id in f.pending && f.pending[id] == t.pending[id])
    && (forall k :: 0 <= k < |f.clients| ==> t.clients[k].hello == f.clients[k].hello)
    && (forall id :: id in t.pending && id >= f.nextOp && t.pending[id].AwaitsHello() ==>
          id in f.pending || t.pending[id].client >= |f.clients|)
  }

  lemma ConnectGrows(f: Fleet, hasUrl: bool, hasHost: bool)
    ensures Grows(f, ConnectFleet(f, hasUrl, hasHost))
  {
  }

  lemma DroppedConnectGrows(f: Fleet, hasUrl: bool, hasHost: bool)
    ensures Grows(f, f) && Grows(f, f.Drop()) && Grows(f, ConnectFleet(f.Drop(), hasUrl, hasHost))
  {
  }

  lemma ReplyGrows(s: State, step: Step)
    requires Enabled(s, step)
    requires step.ConnectTokenReply? || step.ConnectHelloReply? || step.CutoverTokenReply? || step.CutoverHelloReply?
    ensures Grows(s.fleet, Next(s, step).fleet)
  {
  }

  lemma ClosedGrows(s: State, k: ClientId, info: CloseInfo, hasUrl: bool)
    ensures Grows(s.fleet, ClosedStep(s, k, info, hasUrl).fleet)
  {
    hide Grows, ConnectFleet;
    ConnectGrows(s.fleet, hasUrl, s.activeHost.Some?);
    DroppedConnectGrows(s.fleet, hasUrl, s.activeHost.Some?);
  }

  lemma SuspendGrows(f: Fleet, p: Pending)
    requires p.CutoverToken?
    ensures Grows(f, f) && Grows(f, f.Suspend(p)) && Grows(f, f.Bump().Drop())
  {
  }

  lemma RevalidationGrows(f: Fleet, id: nat, hasUrl: bool, hasHost: bool)
    ensures Grows(f, f.Resume(id)) && Grows(f, ConnectFleet(f.Resume(id), hasUrl, hasHost))
  {
  }

  lemma StepGrows(s: State, step: Step)
    requires Enabled(s, step)
    ensures Grows(s.fleet, Next(s, step).fleet)
  {
    hide Grows, ConnectFleet, ClosedStep;
    var f, host := s.fleet, s.activeHost.Some?;
    SuspendGrows(f, CutoverToken(f.generation, f.register, 0));
    match step
    case Connect(hasUrl) => ConnectGrows(f, hasUrl, host);
    case RevalidationReply(id, _, hasUrl) => RevalidationGrows(f, id, hasUrl, host);
    case Cutover(target) => SuspendGrows(f, CutoverToken(f.generation, f.register, target));
    case Disconnect =>
    case Closed(k, info, hasUrl) => ClosedGrows(s, k, info, hasUrl);
    case Received(_, event) =>
      if event.Migrating? && event.target.Some? {
        SuspendGrows(f, CutoverToken(f.generation, f.register, event.target.value));
      }
    case JwtTimer(hasUrl) => DroppedConnectGrows(f, hasUrl, host);
    case EagerTimer(hasUrl) => ConnectGrows(f, hasUrl, host);
    case CutoverFallback =>
    case Tick(_) =>
    case SelectHost(_) =>
    case _ => ReplyGrows(s, step);
  }

  lemma PathGrowsOnce(states: seq<State>, steps: seq<Step>, i: nat)
    requires IsPath(states, steps) && i < |steps|
    ensures Grows(states[i].fleet, states[i + 1].fleet)
  {
    assert StepAt(states, steps, i);
    StepGrows(states[i], steps[i]);
  }

  lemma {:induction false} PathGrows(states: seq<State>, steps: seq<Step>, i: nat, j: nat)
    requires IsPath(states, steps) && i <= j < |states|
    ensures states[i].fleet.generation <= states[j].fleet.generation
    ensures states[i].fleet.nextOp <= states[j].fleet.nextOp
    ensures forall id :: id in states[j].fleet.pending && id < states[i].fleet.nextOp ==>
              id in states[i].fleet.pending && states[i].fleet.pending[id] == states[j].fleet.pending[id]
    decreases j - i
  {
    if i < j {
      PathGrowsOnce(states, steps, i);
      PathGrows(states, steps, i + 1, j);
    }
  }

  /** Resuming an operation of a passed generation registers nothing and leaves `connected` alone. */
  lemma OvertakenIsInert(s: State, step: Step, id: nat)
    requires Enabled(s, step) && Resumed(step) == Some(id)
    requires s.fleet.pending[id].generation != s.fleet.generation
    ensures Next(s, step).fleet.register == s.fleet.register
    ensures Next(s, step).conn == s.conn
    ensures Next(s, step).fleet.generation == s.fleet.generation
  {
  }

  /**
   * An operation whose generation was passed while it waited registers nothing and does not set
   * `connected`, however much later it resumes.
   */
  lemma OvertakenNeverRegisters(states: seq<State>, steps: seq<Step>, i: nat, j: nat, id: nat)
    requires IsRun(states, steps) && i <= j < |steps|
    requires id in states[i].fleet.pending
    requires states[i].fleet.pending[id].generation < states[i].fleet.generation
    requires Resumed(steps[j]) == Some(id)
    ensures states[j + 1].fleet.register == states[j].fleet.register
    ensures states[j + 1].conn == states[j].conn
    ensures states[j + 1].fleet.generation == states[j].fleet.generation
  {
    PathGrows(states, steps, i, j);
    RunKeepsInv(states, steps, i);
    assert PendingOk(states[i].fleet, id, states[i].fleet.pending[id]);
    assert StepAt(states, steps, j);
    OvertakenIsInert(states[j], steps[j], id);
  }

  // ---- disconnecting ----

  /** Nothing pending can bring the connection back. */
  ghost predicate Quiet(s: State) {
    && s.fleet.register == None && !s.conn.connected && !s.eager.scheduled && !s.auth.retryTimer
    && forall id :: id in s.fleet.pending && (s.fleet.pending[id].ConnectToken? || s.fleet.pending[id].Revalidation?)
         ==> s.fleet.pending[id].generation < s.fleet.generation
  }

  lemma QuietUntilConnect(s: State, step: Step)
    requires Quiet(s) && Enabled(s, step) && !step.Connect?
    ensures Quiet(Next(s, step))
  {
  }

  lemma DisconnectQuiets(s: State)
    requires Inv(s.fleet)
    ensures Quiet(DisconnectStep(s))
  {
    assert forall id :: id in s.fleet.pending ==> PendingOk(s.fleet, id, s.fleet.pending[id]);
  }

  lemma {:induction false} StaysQuiet(states: seq<State>, steps: seq<Step>, i: nat, j: nat)
    requires IsRun(states, steps) && i < j < |states| && steps[i] == Disconnect
    requires forall m :: i < m < j ==> !steps[m].Connect?
    ensures Quiet(states[j])
  {
    assert StepAt(states, steps, j - 1);
    if j == i + 1 {
      RunKeepsInv(states, steps, i);
      DisconnectQuiets(states[i]);
    } else {
      StaysQuiet(states, steps, i, j - 1);
      QuietUntilConnect(states[j - 1], steps[j - 1]);
    }
  }

  /**
   * After `wsDisconnect` no reply, callback, event, timer or cutover registers a client or sets
   * `connected` until `wsConnect` is called anew.
   */
  lemma DisconnectIsFinal(states: seq<State>, steps: seq<Step>, i: nat, j: nat)
    requires IsRun(states, steps) && i < j < |states| && steps[i] == Disconnect
    requires forall m :: i < m < j ==> !steps[m].Connect?
    ensures states[j].fleet.register == None && !states[j].conn.connected
  {
    StaysQuiet(states, steps, i, j);
  }

  // ---- cutovers ----

  predicate CutoverSucceeds(s: State, step: Step)
    requires Enabled(s, step)
  {
    step.CutoverHelloReply? && step.ok && MaySwap(s, s.fleet.pending[step.id])
  }

  /** The cutover a step resumes. */
  function Cutting(s: State, step: Step): Pending
    requires Enabled(s, step) && step.CutoverHelloReply?
  {
    s.fleet.pending[step.id]
  }

  /** Of all cutovers that captured one generation, at most one succeeds. */
  lemma OneCutoverWins(states: seq<State>, steps: seq<Step>, i: nat, j: nat)
    requires IsRun(states, steps) && i < j < |steps|
    requires StepAt(states, steps, i) && CutoverSucceeds(states[i], steps[i])
    requires StepAt(states, steps, j) && CutoverSucceeds(states[j], steps[j])
    ensures Cutting(states[i], steps[i]).generation < Cutting(states[j], steps[j]).generation
  {
    PathGrows(states, steps, i + 1, j);
  }

  /** A cutover whose handshake is answered without success closes its backup and changes nothing else. */
  lemma LosingCutoverClosesBackup(states: seq<State>, steps: seq<Step>, j: nat)
    requires IsRun(states, steps) && j < |steps| && steps[j].CutoverHelloReply?
    requires StepAt(states, steps, j) && !CutoverSucceeds(states[j], steps[j])
    ensures var s, k := states[j], Cutting(states[j], steps[j]).client;
            && k < |s.fleet.clients|
            && states[j + 1] == s.(fleet := s.fleet.(
                 clients := s.fleet.clients[k := Client(true, steps[j].id)],
                 pending := s.fleet.pending - {steps[j].id}))
  {
    RunKeepsInv(states, steps, j);
    assert PendingOk(states[j].fleet, steps[j].id, Cutting(states[j], steps[j]));
  }
}
