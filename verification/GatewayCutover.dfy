/** Make before break: exactly when a cutover that succeeds can see the connection go down. */
module GatewayCutover {
  import opened Wrappers
  import opened GatewayMachine
  import opened GatewaySafety
  import opened GatewayRuns

  /** No connect of generation g waits for the hello of client k. */
  ghost predicate Settled(f: Fleet, g: nat, k: ClientId) {
    forall id :: id in f.pending ==> f.pending[id] != ConnectHello(g, k)
  }

  /** The registered client is still shaking hands under the current generation. */
  ghost predicate Unsettled(f: Fleet) {
    f.register.Some? && !Settled(f, f.generation, f.register.value)
  }

  /** `cutoverToHost` is called, by itself or for a migration notice. */
  predicate CallsCutover(s: State, step: Step) {
    || step.Cutover?
    || (step.Received? && step.event.Migrating? && step.event.target.Some? &&
        s.fleet.register == Some(step.client) && s.conn.connected)
  }

  /** The cutover called by the first step gets its token at step i and swaps at the last one. */
  ghost predicate CutsOver(states: seq<State>, steps: seq<Step>, i: nat) {
    && IsPath(states, steps) && 0 < i && i + 1 < |steps|
    && CallsCutover(states[0], steps[0])
    && steps[i] == CutoverTokenReply(states[0].fleet.nextOp, true)
    && states[i].fleet.nextOp in states[i + 1].fleet.pending
    && Last(steps) == CutoverHelloReply(states[i].fleet.nextOp, true)
    && Enabled(BeforeLast(states), Last(steps)) && CutoverSucceeds(BeforeLast(states), Last(steps))
  }

  function Last<T>(s: seq<T>): T
    requires |s| > 0
  {
    s[|s| - 1]
  }

  function BeforeLast<T>(s: seq<T>): T
    requires |s| > 1
  {
    s[|s| - 2]
  }

  /** From s a cutover can be called that succeeds although `connected` was false on the way. */
  ghost predicate CanBreak(s: State) {
    exists states, steps, i, m :: Breaks(s, states, steps, i, m)
  }

  ghost predicate Breaks(s: State, states: seq<State>, steps: seq<Step>, i: nat, m: nat) {
    CutsOver(states, steps, i) && states[0] == s && m < |states| && !states[m].conn.connected
  }

  // ---- a settled source ----

  lemma SettledStaysSettled(f: Fleet, t: Fleet, g: nat, k: ClientId)
    requires AllPendingOk(f) && Grows(f, t) && k < |f.clients| && Settled(f, g, k)
    ensures k < |t.clients| && Settled(t, g, k)
  {
    assert forall id :: id in f.pending ==> PendingOk(f, id, f.pending[id]);
  }

  /** Nothing was registered, or it was a client that exists and had its hello. */
  ghost predicate SettledSource(f: Fleet, g: nat, r: Option<ClientId>) {
    r.Some? ==> r.value < |f.clients| && Settled(f, g, r.value)
  }

  lemma {:induction false} SettledAlong(states: seq<State>, steps: seq<Step>, m: nat, g: nat, r: Option<ClientId>)
    requires IsPath(states, steps) && Inv(states[0].fleet) && m < |states|
    requires SettledSource(states[0].fleet, g, r)
    ensures SettledSource(states[m].fleet, g, r)
  {
    if m > 0 && r.Some? {
      SettledAlong(states, steps, m - 1, g, r);
      PathKeepsInv(states, steps, m - 1);
      PathGrowsOnce(states, steps, m - 1);
      SettledStaysSettled(states[m - 1].fleet, states[m].fleet, g, r.value);
    }
  }

  /** Within one generation, a step that ends with r registered and connected began so. */
  lemma ConnectedBefore(s: State, step: Step, r: Option<ClientId>)
    requires Inv(s.fleet) && Enabled(s, step) && SettledSource(s.fleet, s.fleet.generation, r)
    requires Next(s, step).fleet.generation == s.fleet.generation
    requires Next(s, step).fleet.register == r && Next(s, step).conn.connected
    ensures s.fleet.register == r && s.conn.connected
  {
  }

  lemma {:induction false} ConnectedBackTo(states: seq<State>, steps: seq<Step>, m: nat, j: nat, r: Option<ClientId>)
    requires IsPath(states, steps) && Inv(states[0].fleet) && m <= j < |states|
    requires SettledSource(states[0].fleet, states[0].fleet.generation, r)
    requires states[0].fleet.generation == states[j].fleet.generation
    requires states[j].fleet.register == r && states[j].conn.connected
    ensures states[m].fleet.register == r && states[m].conn.connected
    decreases j - m
  {
    if m < j {
      ConnectedBackTo(states, steps, m + 1, j, r);
      PathGrows(states, steps, 0, m);
      PathGrows(states, steps, m, m + 1);
      PathGrows(states, steps, m + 1, j);
      SettledAlong(states, steps, m, states[0].fleet.generation, r);
      PathKeepsInv(states, steps, m);
      assert StepAt(states, steps, m);
      ConnectedBefore(states[m], steps[m], r);
    }
  }

  /** What the swap resumes with is what the call captured. */
  lemma CapturedAtCall(states: seq<State>, steps: seq<Step>, i: nat)
    requires CutsOver(states, steps, i) && Inv(states[0].fleet)
    ensures var p := Cutting(BeforeLast(states), Last(steps));
      p.generation == states[0].fleet.generation && p.source == states[0].fleet.register
  {
    var c, h := states[0].fleet.nextOp, states[i].fleet.nextOp;
    assert StepAt(states, steps, 0) && StepAt(states, steps, i);
    PathGrows(states, steps, 1, i);
    PathKeepsInv(states, steps, i);
    assert h in states[i].fleet.pending ==> PendingOk(states[i].fleet, h, states[i].fleet.pending[h]);
    PathGrows(states, steps, i + 1, |steps| - 1);
  }

  /**
   * A cutover called while the source is settled, or while nothing is registered, and which succeeds:
   * `connected` is true at every state from call to return, and in the end the backup is registered,
   * the host moved and just the source closed.
   */
  lemma SettledCutoverKeepsConnected(states: seq<State>, steps: seq<Step>, i: nat, m: nat)
    requires CutsOver(states, steps, i) && Inv(states[0].fleet) && !Unsettled(states[0].fleet) && m < |states|
    ensures states[m].conn.connected
    ensures var s, t, p, r := BeforeLast(states), Last(states), Cutting(BeforeLast(states), Last(steps)),
                              states[0].fleet.register;
      && t.fleet.register == Some(p.client) && t.activeHost == Some(p.target)
      && t.fleet.clients == if r.Some? then CloseAt(s.fleet.clients, r.value) else s.fleet.clients
  {
    var j := |steps| - 1;
    CapturedAtCall(states, steps, i);
    assert StepAt(states, steps, j);
    if m <= j {
      ConnectedBackTo(states, steps, m, j, states[0].fleet.register);
    }
  }

  // ---- an unsettled source ----

  const DROP := CloseInfo(1006, false, false)

  /** A socket drop outside the armed window marks the connection down and leaves the fleet alone. */
  lemma DropOnly(s: State, k: ClientId) returns (t: State, u: State, wait: nat)
    requires s.fleet.register == Some(k) && k < |s.fleet.clients|
    ensures StepsTo(s, Tick(wait), t) && StepsTo(t, Closed(k, DROP, true), u)
    ensures u.fleet == s.fleet && !u.conn.connected
  {
    wait := if s.eager.Armed() then s.eager.armedUntil - s.eager.now else 0;
    t := Next(s, Tick(wait));
    u := Next(t, Closed(k, DROP, true));
  }

  /** The hello a registered client waited for marks the connection up. */
  lemma HelloConnects(s: State, id: nat, k: ClientId) returns (t: State)
    requires s.fleet.register == Some(k)
    requires id in s.fleet.pending && s.fleet.pending[id] == ConnectHello(s.fleet.generation, k)
    ensures StepsTo(s, ConnectHelloReply(id, true), t)
    ensures t.fleet == s.fleet.Resume(id) && t.conn.connected
  {
    t := Next(s, ConnectHelloReply(id, true));
  }

  /** While the source stands and the connection is up, a cutover goes through. */
  lemma CutoverCompletes(s: State, c: nat, r: Option<ClientId>, target: nat) returns (t: State, u: State)
    requires c in s.fleet.pending && s.fleet.pending[c] == CutoverToken(s.fleet.generation, r, target)
    requires s.fleet.register == r && s.conn.connected
    ensures StepsTo(s, CutoverTokenReply(c, true), t) && s.fleet.nextOp in t.fleet.pending
    ensures StepsTo(t, CutoverHelloReply(s.fleet.nextOp, true), u)
    ensures CutoverSucceeds(t, CutoverHelloReply(s.fleet.nextOp, true))
  {
    t := Next(s, CutoverTokenReply(c, true));
    u := Next(t, CutoverHelloReply(s.fleet.nextOp, true));
  }

  /** The socket drops, the hello still comes, and the cutover goes through. */
  lemma UnsettledRun(s: State, id: nat, k: ClientId) returns (states: seq<State>, steps: seq<Step>)
    requires Inv(s.fleet) && s.fleet.register == Some(k)
    requires id in s.fleet.pending && s.fleet.pending[id] == ConnectHello(s.fleet.generation, k)
    ensures |states| == 7 && |steps| == 6 && states[0] == s && steps[0].Cutover? && !states[3].conn.connected
    ensures forall i, j :: 0 <= i < |steps| && j == i + 1 ==> StepsTo(states[i], steps[i], states[j])
    ensures steps[4] == CutoverTokenReply(s.fleet.nextOp, true) && states[4].fleet.nextOp in states[5].fleet.pending
    ensures steps[5] == CutoverHelloReply(states[4].fleet.nextOp, true)
    ensures Enabled(states[5], steps[5]) && CutoverSucceeds(states[5], steps[5])
  {
    var c := s.fleet.nextOp;
    assert PendingOk(s.fleet, id, s.fleet.pending[id]);
    var s1 := Next(s, Cutover(0));
    assert StepsTo(s, Cutover(0), s1) && s1.fleet.nextOp == c + 1;
    hide Inv, Next, Enabled, CutoverSucceeds, PendingOk, StepsTo;
    var s2, s3, wait := DropOnly(s1, k);
    var s4 := HelloConnects(s3, id, k);
    var s5, s6 := CutoverCompletes(s4, c, Some(k), 0);
    states := [s, s1, s2, s3, s4, s5, s6];
    steps := [Cutover(0), Tick(wait), Closed(k, DROP, true), ConnectHelloReply(id, true),
              CutoverTokenReply(c, true), CutoverHelloReply(c + 1, true)];
  }

  lemma UnsettledBreaks(s: State, id: nat, k: ClientId)
    requires Inv(s.fleet) && s.fleet.register == Some(k)
    requires id in s.fleet.pending && s.fleet.pending[id] == ConnectHello(s.fleet.generation, k)
    ensures CanBreak(s)
  {
    hide Inv, Next, Enabled, CutoverSucceeds, StepsTo, IsPath;
    var states, steps := UnsettledRun(s, id, k);
    StepByStep(states, steps);
    assert Breaks(s, states, steps, 4, 3);
  }

  /**
   * Make before break holds of every cutover called in a reachable connected state, exactly unless
   * the registered client is still shaking hands under the current generation.
   */
  lemma MakeBeforeBreakExactly(s: State)
    requires Reachable(s) && s.conn.connected
    ensures CanBreak(s) <==> Unsettled(s.fleet)
  {
    ReachableKeepsInv(s);
    if Unsettled(s.fleet) {
      var k := s.fleet.register.value;
      var id :| id in s.fleet.pending && s.fleet.pending[id] == ConnectHello(s.fleet.generation, k);
      UnsettledBreaks(s, id, k);
    } else if CanBreak(s) {
      var states, steps, i, m :| Breaks(s, states, steps, i, m);
      SettledCutoverKeepsConnected(states, steps, i, m);
      assert false;
    }
  }
}
