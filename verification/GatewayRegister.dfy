/** The registered client: exactly which steps let a closed one end up registered. */
module GatewayRegister {
  import opened GatewayMachine
  import opened GatewaySafety
  import opened GatewayRuns

  /** Some connect waits for the hello of client k. */
  ghost predicate Awaited(f: Fleet, k: ClientId) {
    exists id :: id in f.pending && f.pending[id].ConnectHello? && f.pending[id].client == k
  }

  /** The step begins a connect that ends at once for want of a url, with the register as it was. */
  predicate ConnectsNowhere(s: State, step: Step)
    requires Enabled(s, step)
  {
    match step
    case Connect(hasUrl) => !hasUrl
    case EagerTimer(hasUrl) => !hasUrl
    case RevalidationReply(id, moved, hasUrl) =>
      moved && !hasUrl && s.fleet.pending[id].generation == s.fleet.generation
    case _ => false
  }

  /** A connect without a url while the registered client is still awaited: its hello comes too late. */
  ghost predicate Overtakes(s: State, step: Step)
    requires Enabled(s, step)
  {
    s.fleet.register.Some? && Awaited(s.fleet, s.fleet.register.value) && ConnectsNowhere(s, step)
  }

  ghost predicate OvertakesAt(states: seq<State>, steps: seq<Step>, i: nat)
    requires |states| == |steps| + 1 && i < |steps| && Enabled(states[i], steps[i])
  {
    Overtakes(states[i], steps[i])
  }

  predicate RegisteredClosed(f: Fleet) {
    f.register.Some? && f.register.value < |f.clients| && f.clients[f.register.value].closed
  }

  /** The hello of the registered client is awaited by a connect of a passed generation. */
  ghost predicate Overtaken(f: Fleet) {
    exists id :: OvertakenBy(f, id)
  }

  predicate OvertakenBy(f: Fleet, id: nat) {
    && f.register.Some? && id in f.pending && f.pending[id].ConnectHello?
    && f.pending[id].client == f.register.value && f.pending[id].generation != f.generation
  }

  /** The registered client is open, and its hello will be taken as current. */
  ghost predicate RegisterOpen(f: Fleet) {
    !RegisteredClosed(f) && !Overtaken(f)
  }

  // ---- one step ----

  lemma ReplyKeepsRegisterOpen(s: State, step: Step)
    requires Inv(s.fleet) && RegisterOpen(s.fleet) && Enabled(s, step)
    requires step.ConnectTokenReply? || step.ConnectHelloReply? || step.CutoverTokenReply? || step.CutoverHelloReply?
    ensures RegisterOpen(Next(s, step).fleet)
  {
    var f, t, id := s.fleet, Next(s, step).fleet, step.id;
    assert PendingOk(f, id, f.pending[id]) && !OvertakenBy(f, id);
    assert !RegisteredClosed(t) by {
      hide Overtaken, NoneLeaked, ConnectsApart, AllPendingOk;
    }
    forall j ensures !OvertakenBy(t, j) {
      assert !OvertakenBy(f, j) && (j in f.pending ==> PendingOk(f, j, f.pending[j]));
    }
  }

  /** A connect that goes nowhere overtakes exactly a registered client still awaited. */
  lemma BumpOvertakesExactly(f: Fleet)
    requires Inv(f) && RegisterOpen(f)
    ensures RegisterOpen(f.Bump()) <==> !(f.register.Some? && Awaited(f, f.register.value))
  {
    var t := f.Bump();
    assert forall id :: id in f.pending ==> PendingOk(f, id, f.pending[id]);
    if id :| f.register.Some? && id in f.pending && f.pending[id].ConnectHello? &&
             f.pending[id].client == f.register.value {
      assert OvertakenBy(t, id);
    }
  }

  lemma OvertakesExactly(s: State, step: Step)
    requires Inv(s.fleet) && RegisterOpen(s.fleet) && Enabled(s, step)
    ensures RegisterOpen(Next(s, step).fleet) <==> !Overtakes(s, step)
  {
    var f, t := s.fleet, Next(s, step).fleet;
    if step.ConnectTokenReply? || step.ConnectHelloReply? || step.CutoverTokenReply? || step.CutoverHelloReply? {
      ReplyKeepsRegisterOpen(s, step);
    } else if ConnectsNowhere(s, step) {
      BumpOvertakesExactly(f);
      assert t.register == f.register && t.generation == f.generation + 1 && t.clients == f.clients;
      assert forall id :: OvertakenBy(t, id) <==> OvertakenBy(f.Bump(), id);
    } else {
      hide Inv;
      assert t.register.Some? ==> t.register == f.register && t.clients == f.clients && t.generation == f.generation;
      assert forall id :: OvertakenBy(t, id) ==> OvertakenBy(f, id);
    }
  }

  // ---- runs ----

  /** An open register stays so as long as no step overtakes its client. */
  lemma {:induction false} OpenAlong(states: seq<State>, steps: seq<Step>, n: nat)
    requires IsPath(states, steps) && Inv(states[0].fleet) && RegisterOpen(states[0].fleet) && n < |states|
    requires forall m :: 0 <= m < n ==> StepAt(states, steps, m) && !OvertakesAt(states, steps, m)
    ensures RegisterOpen(states[n].fleet)
  {
    if n > 0 {
      OpenAlong(states, steps, n - 1);
      PathKeepsInv(states, steps, n - 1);
      assert StepAt(states, steps, n - 1) && !OvertakesAt(states, steps, n - 1);
      OvertakesExactly(states[n - 1], steps[n - 1]);
    }
  }

  /** Some path without a step that overtakes the registered client ends with a closed one registered. */
  ghost predicate AtRisk(s: State) {
    exists states, steps :: Endangers(s, states, steps)
  }

  ghost predicate Endangers(s: State, states: seq<State>, steps: seq<Step>) {
    && IsPath(states, steps) && states[0] == s && RegisteredClosed(states[|steps|].fleet)
    && forall m :: 0 <= m < |steps| ==> StepAt(states, steps, m) && !OvertakesAt(states, steps, m)
  }

  /** One reply away: the late hello closes the client it came for. */
  lemma LateHelloCloses(s: State, id: nat)
    requires Inv(s.fleet) && OvertakenBy(s.fleet, id)
    ensures AtRisk(s)
  {
    var step := ConnectHelloReply(id, true);
    assert PendingOk(s.fleet, id, s.fleet.pending[id]);
    var states, steps := [s, Next(s, step)], [step];
    assert StepAt(states, steps, 0) && !OvertakesAt(states, steps, 0);
    assert Endangers(s, states, steps);
  }

  lemma AtRiskUnlessOpen(s: State)
    requires Inv(s.fleet)
    ensures AtRisk(s) <==> !RegisterOpen(s.fleet)
  {
    if RegisteredClosed(s.fleet) {
      assert Endangers(s, [s], []);
    } else if id :| OvertakenBy(s.fleet, id) {
      LateHelloCloses(s, id);
    } else if AtRisk(s) {
      var states, steps :| Endangers(s, states, steps);
      OpenAlong(states, steps, |steps|);
      assert false;
    }
  }

  /** As long as no step overtook the registered client, it is open. */
  lemma RegisteredClientIsOpen(states: seq<State>, steps: seq<Step>, n: nat)
    requires IsRun(states, steps) && n < |states|
    requires forall m :: 0 <= m < n ==> StepAt(states, steps, m) && !OvertakesAt(states, steps, m)
    ensures var f := states[n].fleet;
      f.register.Some? ==> f.register.value < |f.clients| && !f.clients[f.register.value].closed
  {
    OpenAlong(states, steps, n);
    RunKeepsInv(states, steps, n);
  }

  /** A step puts at risk a state that was not, exactly when it overtakes the registered client. */
  lemma AtRiskExactly(s: State, step: Step)
    requires Reachable(s) && !AtRisk(s) && Enabled(s, step)
    ensures AtRisk(Next(s, step)) <==> Overtakes(s, step)
  {
    ReachableKeepsInv(s);
    NextKeepsInv(s, step);
    AtRiskUnlessOpen(s);
    AtRiskUnlessOpen(Next(s, step));
    OvertakesExactly(s, step);
  }

  /** A run never comes to a state at risk exactly when none of its steps overtakes the registered client. */
  lemma NeverAtRiskExactly(states: seq<State>, steps: seq<Step>)
    requires IsRun(states, steps)
    ensures (forall n :: 0 <= n < |states| ==> !AtRisk(states[n])) <==>
            (forall m :: 0 <= m < |steps| ==> StepAt(states, steps, m) && !OvertakesAt(states, steps, m))
  {
    forall n | 0 <= n < |states| ensures AtRisk(states[n]) <==> !RegisterOpen(states[n].fleet) {
      RunKeepsInv(states, steps, n);
      AtRiskUnlessOpen(states[n]);
    }
    if forall m :: 0 <= m < |steps| ==> StepAt(states, steps, m) && !OvertakesAt(states, steps, m) {
      forall n | 0 <= n < |states| ensures !AtRisk(states[n]) {
        OpenAlong(states, steps, n);
      }
    } else {
      var m :| 0 <= m < |steps| && !(StepAt(states, steps, m) && !OvertakesAt(states, steps, m));
      assert StepAt(states, steps, m);
      if !AtRisk(states[m]) {
        RunKeepsInv(states, steps, m);
        OvertakesExactly(states[m], steps[m]);
        assert AtRisk(states[m + 1]);
      }
    }
  }
}
